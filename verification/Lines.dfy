/**
  A stream of writes turned into lines. A char stands for one byte.
 */
module Lines {
  predicate NoNewline(s: string) { '\n' !in s }

  predicate FirstNewline(s: string, i: int) { 0 <= i < |s| && s[i] == '\n' && NoNewline(s[..i]) }

  lemma {:induction false} SomeNewlineIsFirst(s: string)
    requires !NoNewline(s)
    ensures exists i :: FirstNewline(s, i)
  {
    var n := |s| - 1;
    if NoNewline(s[..n]) {
      assert FirstNewline(s, n);
    } else {
      SomeNewlineIsFirst(s[..n]);
      var i :| FirstNewline(s[..n], i);
      assert s[..n][..i] == s[..i];
      assert FirstNewline(s, i);
    }
  }

  lemma OneFirstNewline(s: string, i: int, j: int)
    requires FirstNewline(s, i) && FirstNewline(s, j)
    ensures i == j
  {
    if i < j { NewlineBefore(s, i, j); } else if j < i { NewlineBefore(s, j, i); }
  }

  lemma NewlineBefore(s: string, i: int, j: int)
    requires 0 <= i < j <= |s| && s[i] == '\n'
    ensures !NoNewline(s[..j])
  {
    assert s[..j][i] == '\n';
  }

  ghost function NewlineAt(s: string): (i: int)
    ensures if NoNewline(s) then i == -1 else FirstNewline(s, i)
  {
    if NoNewline(s) then -1 else SomeNewlineIsFirst(s); var i :| FirstNewline(s, i); i
  }

  /** bytes.IndexByte(s, '\n'). */
  method IndexNewline(s: string) returns (i: int)
    ensures i == NewlineAt(s)
  {
    i := 0;
    while i < |s| && s[i] != '\n'
      invariant 0 <= i <= |s| && NoNewline(s[..i])
    {
      i := i + 1;
    }
    if i == |s| {
      assert s[..i] == s;
      return -1;
    }
    OneFirstNewline(s, i, NewlineAt(s));
  }

  /** One trailing carriage return less. */
  function Trim(s: string): string { if s != "" && s[|s| - 1] == '\r' then s[..|s| - 1] else s }

  /** How much of the buffer the next line takes, newline included; 0 if none is complete. */
  ghost function Cut(buf: string, max: int): (n: nat)
    ensures n <= |buf|
  {
    var i := NewlineAt(buf);
    if i != -1 then i + 1 else if max <= 0 || |buf| < max then 0 else max
  }

  /** The raw pieces that are taken from a buffer, and what stays. */
  ghost function Pieces(buf: string, max: int): seq<string>
    decreases |buf|
  {
    var n := Cut(buf, max);
    if n == 0 then [] else [buf[..n]] + Pieces(buf[n..], max)
  }

  ghost function Rest(buf: string, max: int): string
    decreases |buf|
  {
    var n := Cut(buf, max);
    if n == 0 then buf else Rest(buf[n..], max)
  }

  /** The line a piece is emitted as. */
  function LineOf(piece: string): string {
    Trim(if piece != "" && piece[|piece| - 1] == '\n' then piece[..|piece| - 1] else piece)
  }

  function LinesOf(pieces: seq<string>): seq<string> {
    seq(|pieces|, i requires 0 <= i < |pieces| => LineOf(pieces[i]))
  }

  ghost function Emitted(buf: string, max: int): seq<string> { LinesOf(Pieces(buf, max)) }

  /** What Flush adds. */
  function Last(rest: string): seq<string> { if rest == "" then [] else [Trim(rest)] }

  class Writer {
    const max: int
    const reliable: bool       // Emit never fails
    var buf: string
    var emitted: seq<string>   // what Emit has taken

    constructor (max: int, reliable: bool)
      ensures this.max == max && this.reliable == reliable && buf == "" && emitted == []
    {
      this.max, this.reliable, buf, emitted := max, reliable, "", [];
    }

    /** The caller's function: it takes the line or fails. */
    method Emit(line: string) returns (failed: bool)
      modifies this`emitted
      ensures emitted == if failed then old(emitted) else old(emitted) + [line]
      ensures reliable ==> !failed
    {
      failed := *;
      if reliable { failed := false; }
      if !failed { emitted := emitted + [line]; }
    }

    /** After a success the complete lines have gone out and the rest is buffered. After a
        failure some have, and what would have followed is still to come: nothing is lost. */
    method Write(p: string) returns (failed: bool)
      modifies this`buf, this`emitted
      ensures emitted + Emitted(buf, max) == old(emitted) + Emitted(old(buf) + p, max)
      ensures Rest(buf, max) == Rest(old(buf) + p, max)
      ensures !failed ==> emitted == old(emitted) + Emitted(old(buf) + p, max) && buf == Rest(old(buf) + p, max)
      ensures reliable ==> !failed
    {
      buf := buf + p;
      ghost var (all, rest) := (emitted + Emitted(buf, max), Rest(buf, max));
      while true
        invariant emitted + Emitted(buf, max) == all && Rest(buf, max) == rest
        decreases |buf|
      {
        var i := IndexNewline(buf);
        var n := i + 1;
        if i < 0 {
          if max <= 0 || |buf| < max { return false; }
          i, n := max, max;
        }
        ghost var was := emitted;
        TakeFirst(was, buf, max, i, n);
        failed := Emit(Trim(buf[..i]));
        if failed { return; }
        buf := buf[n..];
      }
    }

    method Flush() returns (failed: bool)
      modifies this`buf, this`emitted
      ensures buf == "" && emitted == (if failed then old(emitted) else old(emitted) + Last(old(buf)))
      ensures reliable || old(buf) == "" ==> !failed
    {
      if buf == "" { return false; }
      var line := Trim(buf);
      buf := "";
      failed := Emit(line);
    }

    method Pending() returns (yes: bool)
      ensures yes <==> buf != ""
    {
      yes := |buf| > 0;
    }
  }

  lemma CutLine(buf: string, max: int)
    requires Cut(buf, max) > 0
    ensures var (i, n) := (NewlineAt(buf), Cut(buf, max));
      LineOf(buf[..n]) == Trim(if i == -1 then buf[..max] else buf[..i])
  {
    var i := NewlineAt(buf);
    if i != -1 { assert buf[..i + 1][..i] == buf[..i]; }
  }

  /** What one turn of the loop in `Write` does. */
  lemma TakeFirst(emitted: seq<string>, buf: string, max: int, i: int, n: int)
    requires n == Cut(buf, max) > 0 && i == if NewlineAt(buf) == -1 then max else NewlineAt(buf)
    ensures emitted + Emitted(buf, max) == emitted + [Trim(buf[..i])] + Emitted(buf[n..], max)
    ensures Rest(buf, max) == Rest(buf[n..], max)
  {
    CutLine(buf, max);
    FirstPiece(buf, max);
    Associate(emitted, Trim(buf[..i]), Emitted(buf[n..], max));
  }

  lemma Associate(a: seq<string>, s: string, b: seq<string>)
    ensures a + ([s] + b) == a + [s] + b
  {}

  lemma LinesOfAppend(a: seq<string>, b: seq<string>)
    ensures LinesOf(a + b) == LinesOf(a) + LinesOf(b)
  {}

  lemma FirstPiece(buf: string, max: int)
    requires Cut(buf, max) > 0
    ensures var n := Cut(buf, max);
      Emitted(buf, max) == [LineOf(buf[..n])] + Emitted(buf[n..], max) && Rest(buf, max) == Rest(buf[n..], max)
  {
    var piece := buf[..Cut(buf, max)];
    LinesOfAppend([piece], Pieces(buf[Cut(buf, max)..], max));
  }

  // ------------------------------------------------------------ nothing is lost

  function Concat(ss: seq<string>): string { if ss == [] then "" else ss[0] + Concat(ss[1..]) }

  lemma Reassociate(a: string, b: string, c: string)
    ensures (a + b) + c == a + (b + c)
  {}

  lemma ConcatFirst(s: string, ss: seq<string>)
    ensures Concat([s] + ss) == s + Concat(ss)
  {
    assert ([s] + ss)[1..] == ss;
  }

  /** The pieces taken and the buffer are the input, in order. */
  lemma {:induction false} PiecesAreTheInput(buf: string, max: int)
    ensures Concat(Pieces(buf, max)) + Rest(buf, max) == buf
    decreases |buf|
  {
    var n := Cut(buf, max);
    if n > 0 {
      PiecesAreTheInput(buf[n..], max);
      ConcatFirst(buf[..n], Pieces(buf[n..], max));
      FirstBack(buf, n, Concat(Pieces(buf[n..], max)), Rest(buf[n..], max));
    }
  }

  lemma FirstBack(buf: string, n: nat, taken: string, rest: string)
    requires n <= |buf| && taken + rest == buf[n..]
    ensures (buf[..n] + taken) + rest == buf
  {
    Reassociate(buf[..n], taken, rest);
  }

  /** With a maximum, fewer bytes than that stay buffered; no complete line ever does. */
  lemma {:induction false} RestIsShort(buf: string, max: int)
    ensures NoNewline(Rest(buf, max)) && (max > 0 ==> |Rest(buf, max)| < max)
    decreases |buf|
  {
    if Cut(buf, max) > 0 { RestIsShort(buf[Cut(buf, max)..], max); }
  }

  // ---------------------------------------------------------- chunks do not matter

  /** A newline at the end and nowhere else. */
  predicate IsLine(piece: string) { piece != "" && piece[|piece| - 1] == '\n' && NoNewline(piece[..|piece| - 1]) }

  predicate AreLines(pieces: seq<string>) { forall i | 0 <= i < |pieces| :: IsLine(pieces[i]) }

  lemma {:induction false} PiecesAreLines(buf: string)
    ensures AreLines(Pieces(buf, 0))
    decreases |buf|
  {
    var n := Cut(buf, 0);
    if n > 0 {
      PiecesAreLines(buf[n..]);
      assert buf[..n][..n - 1] == buf[..n - 1];
    }
  }

  lemma NewlineOfLine(piece: string, more: string)
    requires IsLine(piece)
    ensures NewlineAt(piece + more) == |piece| - 1 && (piece + more)[|piece|..] == more
  {
    var (s, n) := (piece + more, |piece| - 1);
    assert s[n] == '\n' && s[..n] == piece[..n];
    OneFirstNewline(s, n, NewlineAt(s));
  }

  lemma LineFirst(piece: string, more: string)
    requires IsLine(piece)
    ensures Pieces(piece + more, 0) == [piece] + Pieces(more, 0) && Rest(piece + more, 0) == Rest(more, 0)
  {
    NewlineOfLine(piece, more);
    assert (piece + more)[..|piece|] == piece;
  }

  /** There is only one way to split a stream at its newlines. */
  lemma {:induction false} LinesAreUnique(lines: seq<string>, rest: string)
    requires NoNewline(rest) && AreLines(lines)
    ensures Pieces(Concat(lines) + rest, 0) == lines && Rest(Concat(lines) + rest, 0) == rest
  {
    if lines != [] {
      var more := Concat(lines[1..]) + rest;
      assert Concat(lines) + rest == lines[0] + more;
      LineFirst(lines[0], more);
      LinesAreUnique(lines[1..], rest);
      assert lines == [lines[0]] + lines[1..];
    }
  }

  lemma {:induction false} ConcatTwo(x: seq<string>, y: seq<string>)
    ensures Concat(x + y) == Concat(x) + Concat(y)
  {
    if x == [] {
      assert x + y == y;
    } else {
      ConcatTwo(x[1..], y);
      assert (x + y)[1..] == x[1..] + y;
      Reassociate(x[0], Concat(x[1..]), Concat(y));
    }
  }

  /** Splitting a stream anywhere and writing the parts is writing the stream. */
  lemma TwoChunks(a: string, b: string)
    ensures Pieces(a + b, 0) == Pieces(a, 0) + Pieces(Rest(a, 0) + b, 0)
    ensures Rest(a + b, 0) == Rest(Rest(a, 0) + b, 0)
  {
    var (first, kept) := (Pieces(a, 0), Rest(a, 0));
    var (second, rest) := (Pieces(kept + b, 0), Rest(kept + b, 0));
    PiecesAreTheInput(a, 0);
    PiecesAreTheInput(kept + b, 0);
    ConcatTwo(first, second);
    FourParts(a, b, Concat(first), kept, Concat(second), rest);
    PiecesAreLines(a);
    PiecesAreLines(kept + b);
    RestIsShort(kept + b, 0);
    LinesAreUnique(first + second, rest);
  }

  lemma FourParts(a: string, b: string, first: string, kept: string, second: string, rest: string)
    requires first + kept == a && second + rest == kept + b
    ensures a + b == (first + second) + rest
  {
    Reassociate(first, kept, b);
    Reassociate(first, second, rest);
  }

  lemma OneMoreChunk(a: string, b: string)
    ensures Emitted(a + b, 0) == Emitted(a, 0) + Emitted(Rest(a, 0) + b, 0)
    ensures Rest(a + b, 0) == Rest(Rest(a, 0) + b, 0)
  {
    TwoChunks(a, b);
    LinesOfAppend(Pieces(a, 0), Pieces(Rest(a, 0) + b, 0));
  }

  /** What is emitted and what is buffered after writing the chunks one by one. */
  ghost function AfterWrites(chunks: seq<string>, max: int): (seq<string>, string) {
    if chunks == [] then ([], "")
    else
      var n := |chunks| - 1;
      var (lines, buf) := AfterWrites(chunks[..n], max);
      (lines + Emitted(buf + chunks[n], max), Rest(buf + chunks[n], max))
  }

  /** The raw pieces taken by writing the chunks one by one, over all the writes. */
  ghost function RawPieces(chunks: seq<string>, max: int): seq<string> {
    if chunks == [] then []
    else
      var n := |chunks| - 1;
      RawPieces(chunks[..n], max) + Pieces(AfterWrites(chunks[..n], max).1 + chunks[n], max)
  }

  /** However a stream is cut into writes, and whatever the maximum: the lines emitted are
      the raw pieces trimmed, and these and the buffer are the stream, byte for byte. */
  lemma {:induction false} WritesAreTheInput(chunks: seq<string>, max: int)
    ensures var (lines, buf) := AfterWrites(chunks, max);
      && lines == LinesOf(RawPieces(chunks, max))
      && Concat(RawPieces(chunks, max)) + buf == Concat(chunks)
  {
    if chunks != [] {
      var n := |chunks| - 1;
      WritesAreTheInput(chunks[..n], max);
      OneMoreWrite(RawPieces(chunks[..n], max), AfterWrites(chunks[..n], max).1, chunks[n], Concat(chunks[..n]), max);
      ConcatLast(chunks);
    }
  }

  lemma OneMoreWrite(raw: seq<string>, buf: string, chunk: string, before: string, max: int)
    requires Concat(raw) + buf == before
    ensures LinesOf(raw + Pieces(buf + chunk, max)) == LinesOf(raw) + Emitted(buf + chunk, max)
    ensures Concat(raw + Pieces(buf + chunk, max)) + Rest(buf + chunk, max) == before + chunk
  {
    var (more, rest) := (Pieces(buf + chunk, max), Rest(buf + chunk, max));
    LinesOfAppend(raw, more);
    ConcatTwo(raw, more);
    PiecesAreTheInput(buf + chunk, max);
    Reassociate(Concat(raw), Concat(more), rest);
    Reassociate(Concat(raw), buf, chunk);
  }

  lemma ConcatLast(ss: seq<string>)
    requires ss != []
    ensures Concat(ss) == Concat(ss[..|ss| - 1]) + ss[|ss| - 1]
  {
    var n := |ss| - 1;
    assert ss == ss[..n] + [ss[n]];
    ConcatTwo(ss[..n], [ss[n]]);
    assert Concat([ss[n]]) == ss[n];
  }

  /** However a stream is cut into writes, with no maximum the lines are those of the
      stream: split at newlines, one carriage return trimmed off each. */
  lemma {:induction false} ChunksDoNotMatter(chunks: seq<string>)
    ensures AfterWrites(chunks, 0) == (Emitted(Concat(chunks), 0), Rest(Concat(chunks), 0))
  {
    if chunks == [] {
      assert Cut("", 0) == 0 && Pieces("", 0) == [] && LinesOf([]) == [];
    } else {
      var n := |chunks| - 1;
      ChunksDoNotMatter(chunks[..n]);
      ConcatLast(chunks);
      OneMoreChunk(Concat(chunks[..n]), chunks[n]);
    }
  }

  /** A complete line and its text. */
  predicate Reads(line: string, text: string) {
    line == text + "\r\n" || (line == text + "\n" && (text == "" || text[|text| - 1] != '\r'))
  }

  /** An unfinished line and its text. */
  predicate ReadsRest(rest: string, text: string) {
    rest == text + "\r" || (rest == text && (text == "" || text[|text| - 1] != '\r'))
  }

  /** The texts of a stream of complete lines and an unfinished one, in order. */
  predicate AreTexts(texts: seq<string>, lines: seq<string>, rest: string) {
    && |texts| == |lines| + (if rest == "" then 0 else 1)
    && (forall i | 0 <= i < |lines| :: Reads(lines[i], texts[i]))
    && (rest != "" ==> ReadsRest(rest, texts[|lines|]))
  }

  lemma LineReads(line: string)
    requires IsLine(line)
    ensures Reads(line, LineOf(line))
  {
    var body := line[..|line| - 1];
    assert line == body + "\n";
    if body != "" && body[|body| - 1] == '\r' { assert line == body[..|body| - 1] + "\r\n"; }
  }

  lemma LinesRead(lines: seq<string>, rest: string)
    requires AreLines(lines)
    ensures AreTexts(LinesOf(lines) + Last(rest), lines, rest)
  {
    forall i | 0 <= i < |lines| ensures Reads(lines[i], LinesOf(lines)[i]) { LineReads(lines[i]); }
    if rest != "" && rest[|rest| - 1] == '\r' { assert rest == rest[..|rest| - 1] + "\r"; }
  }

  /** Flushed at the end, the lines of a stream of complete lines and an unfinished one. */
  lemma StreamOfLines(chunks: seq<string>, lines: seq<string>, rest: string)
    requires NoNewline(rest) && AreLines(lines)
    requires Concat(chunks) == Concat(lines) + rest
    ensures var (emitted, buf) := AfterWrites(chunks, 0);
      && emitted + Last(buf) == LinesOf(lines) + Last(rest)
      && AreTexts(emitted + Last(buf), lines, rest)
  {
    ChunksDoNotMatter(chunks);
    LinesAreUnique(lines, rest);
    LinesRead(lines, rest);
  }

  // ------------------------------------------------------ lines and the maximum

  /** One carriage return is taken off the end, and nothing else. */
  lemma TrimTakesOneReturn(s: string)
    ensures Trim(s + "\r") == s
    ensures (s == "" || s[|s| - 1] != '\r') ==> Trim(s) == s
  {
    assert (s + "\r")[..|s|] == s;
  }

  predicate NewlineWithin(s: string, i: nat, n: nat)
    requires i + n <= |s|
  {
    '\n' in s[i..i + n]
  }

  /** Every `n` bytes in a row hold a newline: no line has as many. */
  ghost predicate LinesBelow(s: string, n: nat) { forall i: nat | i + n <= |s| :: NewlineWithin(s, i, n) }

  lemma BelowInPart(a: string, b: string, s: string, n: nat)
    requires s == a + b && LinesBelow(s, n)
    ensures LinesBelow(a, n) && LinesBelow(b, n)
  {
    forall i: nat | i + n <= |a| ensures NewlineWithin(a, i, n) {
      assert NewlineWithin(s, i, n) && s[i..i + n] == a[i..i + n];
    }
    forall i: nat | i + n <= |b| ensures NewlineWithin(b, i, n) {
      assert NewlineWithin(s, |a| + i, n) && s[|a| + i..|a| + i + n] == b[i..i + n];
    }
  }

  /** A maximum that no line reaches makes no difference. */
  lemma {:induction false} MaximumNotReached(buf: string, max: nat)
    requires max > 0 && LinesBelow(buf, max)
    ensures Pieces(buf, max) == Pieces(buf, 0) && Rest(buf, max) == Rest(buf, 0)
    decreases |buf|
  {
    var n := Cut(buf, 0);
    if n > 0 {
      assert buf == buf[..n] + buf[n..];
      BelowInPart(buf[..n], buf[n..], buf, max);
      MaximumNotReached(buf[n..], max);
    } else if max <= |buf| {
      assert NewlineWithin(buf, 0, max);
    }
  }

  lemma {:induction false} WritesBelowMaximum(chunks: seq<string>, max: nat)
    requires max > 0 && LinesBelow(Concat(chunks), max)
    ensures AfterWrites(chunks, max) == AfterWrites(chunks, 0)
  {
    if chunks != [] {
      var n := |chunks| - 1;
      var (before, buf) := (Concat(chunks[..n]), AfterWrites(chunks[..n], 0).1);
      var raw := Concat(RawPieces(chunks[..n], 0));
      ConcatLast(chunks);
      BelowInPart(before, chunks[n], Concat(chunks), max);
      WritesBelowMaximum(chunks[..n], max);
      WritesAreTheInput(chunks[..n], 0);
      Reassociate(raw, buf, chunks[n]);
      BelowInPart(raw, buf + chunks[n], Concat(chunks), max);
      MaximumNotReached(buf + chunks[n], max);
    }
  }

  lemma LineBelow(line: string, more: string, max: nat)
    requires IsLine(line) && |line| <= max && LinesBelow(more, max)
    ensures LinesBelow(line + more, max)
  {
    var s := line + more;
    forall i: nat | i + max <= |s| ensures NewlineWithin(s, i, max) {
      if i < |line| {
        assert s[i..i + max][|line| - 1 - i] == '\n';
      } else {
        assert NewlineWithin(more, i - |line|, max) && s[i..i + max] == more[i - |line|..i - |line| + max];
      }
    }
  }

  lemma {:induction false} AllBelow(lines: seq<string>, rest: string, max: nat)
    requires AreLines(lines) && |rest| < max && forall i | 0 <= i < |lines| :: |lines[i]| <= max
    ensures LinesBelow(Concat(lines) + rest, max)
  {
    if lines != [] {
      AllBelow(lines[1..], rest, max);
      Reassociate(lines[0], Concat(lines[1..]), rest);
      LineBelow(lines[0], Concat(lines[1..]) + rest, max);
    }
  }

  /** What is emitted without a newline has exactly the maximum. */
  predicate LineOrMaximum(piece: string, max: int) { IsLine(piece) || (NoNewline(piece) && |piece| == max) }

  predicate LinesOrMaximum(pieces: seq<string>, max: int) {
    forall i | 0 <= i < |pieces| :: LineOrMaximum(pieces[i], max)
  }

  lemma {:induction false} PiecesReachMaximum(buf: string, max: int)
    ensures LinesOrMaximum(Pieces(buf, max), max)
    decreases |buf|
  {
    var n := Cut(buf, max);
    if n > 0 {
      PiecesReachMaximum(buf[n..], max);
      assert buf[..n][..n - 1] == buf[..n - 1];
    }
  }

  lemma {:induction false} RawPiecesReachMaximum(chunks: seq<string>, max: int)
    ensures LinesOrMaximum(RawPieces(chunks, max), max)
  {
    if chunks != [] {
      var n := |chunks| - 1;
      RawPiecesReachMaximum(chunks[..n], max);
      PiecesReachMaximum(AfterWrites(chunks[..n], max).1 + chunks[n], max);
    }
  }

  lemma {:induction false} BufferIsShort(chunks: seq<string>, max: nat)
    requires max > 0
    ensures NoNewline(AfterWrites(chunks, max).1) && |AfterWrites(chunks, max).1| < max
  {
    if chunks != [] {
      var n := |chunks| - 1;
      RestIsShort(AfterWrites(chunks[..n], max).1 + chunks[n], max);
    }
  }

  // ------------------------------------------------------------------- a scanner

  /** The lines a scanner delivers: trimmed, the last one even if it is unfinished. */
  ghost function Scan(stream: string): seq<string> { Emitted(stream, 0) + Last(Rest(stream, 0)) }

  lemma ClosedLines(pieces: seq<string>)
    requires AreLines(pieces)
    ensures Emitted(Concat(pieces), 0) == LinesOf(pieces) && Rest(Concat(pieces), 0) == ""
  {
    LinesAreUnique(pieces, "");
    assert Concat(pieces) + "" == Concat(pieces);
  }

  lemma AfterClosed(a: string, rest: string)
    requires Rest(a, 0) == ""
    ensures Emitted(a + rest, 0) == Emitted(a, 0) + Emitted(rest, 0) && Rest(a + rest, 0) == Rest(rest, 0)
  {
    OneMoreChunk(a, rest);
    assert Rest(a, 0) + rest == rest;
  }

  lemma Regroup<T>(a: seq<T>, b: seq<T>, c: seq<T>)
    ensures (a + b) + c == a + (b + c)
  {}

  /** Raw lines are delivered one by one, and then whatever follows. */
  lemma ScanPieces(pieces: seq<string>, rest: string)
    requires AreLines(pieces)
    ensures Scan(Concat(pieces) + rest) == LinesOf(pieces) + Scan(rest)
  {
    ClosedLines(pieces);
    AfterClosed(Concat(pieces), rest);
    Regroup(LinesOf(pieces), Emitted(rest, 0), Last(Rest(rest, 0)));
  }

  lemma ScanOfNothing()
    ensures Scan("") == []
  {
    assert Cut("", 0) == 0 && Pieces("", 0) == [] && LinesOf([]) == [];
  }

  predicate NoReturn(s: string) { s == "" || s[|s| - 1] != '\r' }

  function Trimmed(parts: seq<string>): seq<string> { seq(|parts|, i requires 0 <= i < |parts| => Trim(parts[i])) }

  lemma LabelledPiece(tag: string, text: string)
    requires NoNewline(tag) && NoNewline(text) && NoReturn(tag) && tag != ""
    ensures IsLine(tag + text + "\n") && LineOf(tag + text + "\n") == tag + Trim(text)
  {
    assert (tag + text + "\n")[..|tag + text|] == tag + text;
  }

  // ------------------------------------------------------------- split and join

  /** strings.Split(s, "\n"). */
  ghost function Split(s: string): seq<string>
    decreases |s|
  {
    var i := NewlineAt(s);
    if i == -1 then [s] else [s[..i]] + Split(s[i + 1..])
  }

  /** strings.Join(parts, "\n"). */
  function Join(parts: seq<string>): string {
    if parts == [] then "" else if |parts| == 1 then parts[0] else parts[0] + "\n" + Join(parts[1..])
  }

  lemma {:induction false} SplitHasNoNewlines(s: string)
    ensures Split(s) != [] && forall i | 0 <= i < |Split(s)| :: NoNewline(Split(s)[i])
    decreases |s|
  {
    if NewlineAt(s) != -1 { SplitHasNoNewlines(s[NewlineAt(s) + 1..]); }
  }

  lemma JoinFirst(part: string, parts: seq<string>)
    requires parts != []
    ensures Join([part] + parts) == part + "\n" + Join(parts)
  {
    assert ([part] + parts)[1..] == parts;
  }

  lemma AroundNewline(s: string, i: nat)
    requires i < |s| && s[i] == '\n'
    ensures s == s[..i] + "\n" + s[i + 1..]
  {}

  lemma {:induction false} JoinOfSplit(s: string)
    ensures Join(Split(s)) == s
    decreases |s|
  {
    var i := NewlineAt(s);
    if i != -1 {
      JoinOfSplit(s[i + 1..]);
      SplitHasNoNewlines(s[i + 1..]);
      JoinFirst(s[..i], Split(s[i + 1..]));
      AroundNewline(s, i);
    }
  }

  method SplitLines(s: string) returns (parts: seq<string>)
    ensures parts == Split(s)
  {
    parts := [];
    var rest := s;
    while true
      invariant Split(s) == parts + Split(rest)
      decreases |rest|
    {
      var i := IndexNewline(rest);
      if i == -1 { return parts + [rest]; }
      Associate(parts, rest[..i], Split(rest[i + 1..]));
      parts, rest := parts + [rest[..i]], rest[i + 1..];
    }
  }
}

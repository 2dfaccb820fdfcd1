/**
  One app's log in memory: a ring of recent lines and live readers behind bounded
  channels. A slow reader misses lines and hears how many, so that what it has read still
  tells where every line belongs.
 */
module Logs {
  import opened Wrappers
  import opened Decimal

  datatype Line = Line(app: string, release: string, inst: string, stream: string, time: int, text: string)

  const SYSTEM := "ashore"
  const SUBSCRIBER_BUFFER := 64

  // ------------------------------------------------------------------- the ring

  /** The last k of a sequence, or all of it. */
  function LastOf<T>(s: seq<T>, k: int): seq<T> { if k <= 0 then [] else if k <= |s| then s[|s| - k..] else s }

  /** The end of a sequence, of k elements if there are as many and no more than `most`. */
  predicate EndOf<T(==)>(part: seq<T>, s: seq<T>, k: int, most: nat) {
    && |part| <= |s| && part == s[|s| - |part|..] && |part| <= most
    && (k <= 0 ==> part == []) && (0 < k ==> |part| <= k && (|part| == k || |part| == |s| || |part| == most))
  }

  /** x mod size, for going round the ring at most once. */
  function Around(x: nat, size: nat): nat { if x < size then x else if x < 2 * size then x - size else 0 }

  method Mod(x: nat, size: nat) returns (r: nat)
    requires x < 2 * size
    ensures r == Around(x, size)
  {
    if x >= size { assert x == size + (x - size); }
    r := x % size;
  }

  predicate RingOk(size: nat, next: nat, n: nat) { next < size && n <= size && (n < size ==> next == n) }

  /** What a ring holds, oldest first: from n places before the next push. */
  function Held(b: seq<Line>, next: nat, n: nat): seq<Line>
    requires RingOk(|b|, next, n)
  {
    seq(n, i requires 0 <= i < n => b[Around(next - n + |b| + i, |b|)])
  }

  lemma HeldAt(b: seq<Line>, next: nat, n: nat, m: nat, i: nat)
    requires RingOk(|b|, next, n) && i < m <= n
    ensures var at := Around(Around(next - m + |b|, |b|) + i, |b|); at < |b| && b[at] == Held(b, next, n)[n - m + i]
  {
    var k := n - m + i;
    assert Held(b, next, n)[k] == b[Around(next - n + |b| + k, |b|)];
    assert next - n + |b| + k == next - m + |b| + i;
  }

  lemma HeldAfter(b: seq<Line>, next: nat, n: nat, l: Line)
    requires RingOk(|b|, next, n)
    ensures var (held, next', n') := (Held(b, next, n), Around(next + 1, |b|), if n < |b| then n + 1 else n);
      RingOk(|b|, next', n') && Held(b[next := l], next', n') == (if n < |b| then held else held[1..]) + [l]
  {
    var (next', n') := (Around(next + 1, |b|), if n < |b| then n + 1 else n);
    var after := (if n < |b| then Held(b, next, n) else Held(b, next, n)[1..]) + [l];
    forall i | 0 <= i < n' ensures Held(b[next := l], next', n')[i] == after[i] {
      assert Around(next' - n' + |b| + i, |b|) == Around(next + 1 - n' + |b| + i, |b|);
    }
  }

  class Ring {
    const buf: array<Line>
    var next: nat
    var n: nat
    ghost var pushed: seq<Line>

    ghost predicate Valid()
      reads this, buf
    {
      RingOk(buf.Length, next, n) && Held(buf[..], next, n) == LastOf(pushed, buf.Length)
    }

    constructor (size: nat, blank: Line)
      requires size > 0
      ensures Valid() && pushed == [] && buf.Length == size && fresh(buf)
    {
      buf := new Line[size](_ => blank);
      next, n, pushed := 0, 0, [];
    }

    method Push(l: Line)
      requires Valid()
      modifies this, buf
      ensures Valid() && pushed == old(pushed) + [l]
    {
      HeldAfter(buf[..], next, n, l);
      LastAfter(pushed, l, buf.Length);
      buf[next] := l;
      next := Mod(next + 1, buf.Length);
      if n < buf.Length { n := n + 1; }
      pushed := pushed + [l];
    }

    /** The last k lines ever pushed, or as many as the ring holds, oldest first. */
    method Last(k: int) returns (lines: seq<Line>)
      requires Valid()
      ensures lines == LastOf(pushed, if k < buf.Length then k else buf.Length)
      ensures EndOf(lines, pushed, k, buf.Length)
    {
      var m := if k > n then n else k;
      LastOfLast(pushed, k, buf.Length);
      LastIsEnd(pushed, k, buf.Length);
      ghost var held := LastOf(pushed, buf.Length);
      assert |held| == n && LastOf(held, k) == LastOf(held, m);
      if m <= 0 { return []; }
      lines := Newest(m);
    }

    method Newest(m: nat) returns (lines: seq<Line>)
      requires Valid() && m <= n
      ensures lines == Held(buf[..], next, n)[n - m..]
    {
      var start := Mod(next - m + buf.Length, buf.Length);
      ghost var want := Held(buf[..], next, n)[n - m..];
      forall i: nat | i < m ensures InPlace(buf[..], start, i, want[i]) { HeldAt(buf[..], next, n, m, i); }
      lines := GoRound(start, m, want);
    }

    method GoRound(start: nat, m: nat, ghost want: seq<Line>) returns (lines: seq<Line>)
      requires start < buf.Length && |want| == m <= buf.Length
      requires forall i: nat | i < m :: InPlace(buf[..], start, i, want[i])
      ensures lines == want
    {
      lines := [];
      for i := 0 to m
        invariant lines == want[..i]
      {
        assert InPlace(buf[..], start, i, want[i]);
        var at := Mod(start + i, buf.Length);
        lines := lines + [buf[at]];
      }
    }
  }

  /** The i-th place round the ring from `start` on holds `l`. */
  predicate InPlace(b: seq<Line>, start: nat, i: nat, l: Line) {
    Around(start + i, |b|) < |b| && b[Around(start + i, |b|)] == l
  }

  lemma LastAfter<T>(s: seq<T>, x: T, size: nat)
    requires size > 0
    ensures var held := LastOf(s, size); LastOf(s + [x], size) == (if |held| < size then held else held[1..]) + [x]
  {}

  lemma LastOfLast<T>(s: seq<T>, k: int, size: nat)
    requires size > 0
    ensures LastOf(LastOf(s, size), k) == LastOf(s, if k < size then k else size)
  {}

  lemma LastIsEnd<T>(s: seq<T>, k: int, size: nat)
    requires size > 0
    ensures EndOf(LastOf(s, if k < size then k else size), s, k, size)
  {}

  // ---------------------------------------------------------------- the markers

  const BEFORE := "dropped "
  const AFTER := " lines"

  function Marker(l: Line, n: nat): Line { Line(l.app, "", "", SYSTEM, l.time, BEFORE + FormatInt(n) + AFTER) }

  /** What a reader makes of a line: a line of the log, or how many it has missed. */
  function CountOf(l: Line): Option<int> {
    var t := l.text;
    if l.stream != SYSTEM then Some(1)
    else if |t| < |BEFORE| + |AFTER| then None
    else Unsigned(t[|BEFORE|..|t| - |AFTER|])
  }

  lemma MarkerIsRead(l: Line, n: nat)
    ensures CountOf(Marker(l, n)) == Some(n)
  {
    var t := BEFORE + FormatInt(n) + AFTER;
    assert t[|BEFORE|..|t| - |AFTER|] == FormatInt(n);
    DigitsAreRight(n);
  }

  /** A history accounts for a log if every line of it is the log's line at that place and
      every marker stands for as many lines as it says. */
  ghost predicate Accounts(history: seq<Line>, log: seq<Line>) {
    if history == [] then log == []
    else
      var (l, before) := (history[|history| - 1], history[..|history| - 1]);
      var count := CountOf(l);
      && count.Some? && 0 < count.value <= |log|
      && (l.stream != SYSTEM ==> l == log[|log| - 1])
      && Accounts(before, log[..|log| - count.value])
  }

  lemma AccountsLine(history: seq<Line>, log: seq<Line>, l: Line)
    requires Accounts(history, log) && l.stream != SYSTEM
    ensures Accounts(history + [l], log + [l])
  {
    assert (history + [l])[..|history|] == history && (log + [l])[..|log|] == log;
  }

  lemma AccountsMarker(history: seq<Line>, log: seq<Line>, missed: seq<Line>, l: Line)
    requires Accounts(history, log) && missed != []
    ensures Accounts(history + [Marker(l, |missed|)], log + missed)
  {
    MarkerIsRead(l, |missed|);
    assert (history + [Marker(l, |missed|)])[..|history|] == history && (log + missed)[..|log|] == log;
  }

  /** What a reader is told before the next line that gets through. */
  function Notice(l: Line, dropped: nat): seq<Line> {
    if dropped == 0 then []
    else [Line(l.app, "", "", "ashore", l.time, "dropped " + FormatInt(dropped) + " lines")]
  }

  /** A history and what is pending account for the log, and for what was reported. */
  ghost predicate Told(history: seq<Line>, log: seq<Line>, dropped: nat, reported: int) {
    && dropped <= |log| && Accounts(history, log[..|log| - dropped])
    && reported == MarkerTotal(history) + dropped
  }

  lemma TellMarker(history: seq<Line>, log: seq<Line>, n: nat, reported: int, l: Line)
    requires 0 < n && Told(history, log, n, reported)
    ensures Told(history + [Marker(l, n)], log, 0, reported)
  {
    var (seen, missed) := (log[..|log| - n], log[|log| - n..]);
    assert log[..|log|] == log == seen + missed;
    AccountsMarker(history, seen, missed, l);
    MarkerAdds(history, l, n);
  }

  lemma MarkerAdds(history: seq<Line>, l: Line, n: nat)
    ensures MarkerTotal(history + [Marker(l, n)]) == MarkerTotal(history) + n
  {
    MarkerIsRead(l, n);
    assert (history + [Marker(l, n)])[..|history|] == history;
  }

  lemma TellLine(history: seq<Line>, log: seq<Line>, reported: int, l: Line)
    requires Told(history, log, 0, reported) && l.stream != SYSTEM
    ensures Told(history + [l], log + [l], 0, reported)
  {
    assert log[..|log|] == log && (log + [l])[..|log| + 1] == log + [l];
    AccountsLine(history, log, l);
    assert (history + [l])[..|history|] == history;
  }

  lemma TellMiss(history: seq<Line>, log: seq<Line>, dropped: nat, reported: int, l: Line)
    requires Told(history, log, dropped, reported)
    ensures Told(history, log + [l], dropped + 1, reported + 1)
  {
    assert (log + [l])[..|log + [l]| - (dropped + 1)] == log[..|log| - dropped];
  }

  /** How many lines a history stands for, from the history alone. */
  function Position(history: seq<Line>): int {
    if history == [] then 0
    else
      var count := CountOf(history[|history| - 1]);
      Position(history[..|history| - 1]) + if count.Some? then count.value else 0
  }

  /** What has been missed and said. */
  function MarkerTotal(history: seq<Line>): int {
    if history == [] then 0
    else
      var l := history[|history| - 1];
      MarkerTotal(history[..|history| - 1]) + if l.stream == SYSTEM && CountOf(l).Some? then CountOf(l).value else 0
  }

  /** Every line of a history can be put in its place. */
  lemma {:induction false} HistoryPlacesEveryLine(history: seq<Line>, log: seq<Line>, i: nat)
    requires Accounts(history, log) && i < |history| && history[i].stream != SYSTEM
    ensures Position(history) == |log|
    ensures 0 <= Position(history[..i]) < |log| && history[i] == log[Position(history[..i])]
  {
    var n := |history| - 1;
    var before := log[..|log| - CountOf(history[n]).value];
    HistoryCounts(history, log);
    HistoryCounts(history[..n], before);
    if i < n {
      HistoryPlacesEveryLine(history[..n], before, i);
      assert history[..n][..i] == history[..i];
    }
  }

  lemma {:induction false} HistoryCounts(history: seq<Line>, log: seq<Line>)
    requires Accounts(history, log)
    ensures Position(history) == |log|
  {
    if history != [] {
      var n := |history| - 1;
      HistoryCounts(history[..n], log[..|log| - CountOf(history[n]).value]);
    }
  }

  // -------------------------------------------------------------- one live reader

  class Subscriber {
    const capacity: nat
    var ch: seq<Line>
    var dropped: nat
    var closed: bool
    ghost var got: seq<Line>        // what the reader has taken
    ghost var log: seq<Line>        // the tail it was given and every line appended since
    ghost var reported: nat         // drops reported to the observer

    /** Everything that was ever put in the channel. */
    ghost function History(): seq<Line>
      reads this
    {
      got + ch
    }

    /** The channel is bounded and its history accounts for the log. (The quantifier is over
        one value; it keeps `Told` folded where it is only passed on.) */
    ghost predicate Valid()
      reads this
    {
      |ch| <= capacity && forall h | h == History() :: Told(h, log, dropped, reported)
    }

    constructor (preload: seq<Line>)
      requires forall l | l in preload :: l.stream != SYSTEM
      ensures Valid() && ch == preload == log && got == [] && dropped == 0 && reported == 0 && !closed
      ensures capacity == |preload| + 64
    {
      capacity := |preload| + SUBSCRIBER_BUFFER;
      ch, dropped, closed, got, log, reported := preload, 0, false, [], preload, 0;
      new;
      TailAccounts(preload);
      assert [] + preload == preload && log[..|log|] == log;
    }

    /** The reader takes as many lines as it likes, at any time. */
    method Read()
      requires Valid()
      modifies this`ch, this`got
      ensures Valid() && History() == old(History()) && |ch| <= |old(ch)|
    {
      var k: int := *;
      var m := if 0 <= k < |ch| then k else |ch|;
      assert (got + ch[..m]) + ch[m..] == got + ch;
      got := got + ch[..m];
      ch := ch[m..];
    }

    /** One line without blocking; whether it got through. The reader may run at any
        moment, also between the marker and the line. */
    method Send(l: Line) returns (ok: bool)
      requires Valid() && l.stream != SYSTEM
      modifies this`ch, this`got, this`dropped, this`log, this`reported
      ensures Valid() && log == old(log) + [l]
      ensures reported == old(reported) + if ok then 0 else 1
      ensures ok ==> dropped == 0 && History() == old(History()) + Notice(l, old(dropped)) + [l]
      ensures !ok ==>
        && dropped > 0
        && (History() == old(History()) || (dropped == 1 && History() == old(History()) + Notice(l, old(dropped))))
      ensures |old(ch)| + |Notice(l, old(dropped))| + 1 <= capacity ==> ok
    {
      Read();
      if dropped > 0 {
        if |ch| >= capacity {
          Miss(l);
          return false;
        }
        SendMarker(l);
      }
      Read();
      if |ch| >= capacity {
        Miss(l);
        return false;
      }
      Deliver(l);
      ok := true;
    }

    method SendMarker(l: Line)
      requires Valid() && dropped > 0 && |ch| < capacity
      modifies this`ch, this`dropped
      ensures Valid() && dropped == 0 && History() == old(History()) + [Marker(l, old(dropped))]
    {
      TellMarker(History(), log, dropped, reported, l);
      OneMore(got, ch, Marker(l, dropped));
      ch := ch + [Marker(l, dropped)];
      dropped := 0;
    }

    method Deliver(l: Line)
      requires Valid() && dropped == 0 && |ch| < capacity && l.stream != SYSTEM
      modifies this`ch, this`log
      ensures Valid() && log == old(log) + [l] && History() == old(History()) + [l]
    {
      TellLine(History(), log, reported, l);
      OneMore(got, ch, l);
      ch := ch + [l];
      log := log + [l];
    }

    method Miss(l: Line)
      requires Valid()
      modifies this`dropped, this`log, this`reported
      ensures Valid() && log == old(log) + [l] && reported == old(reported) + 1
      ensures dropped == old(dropped) + 1 && History() == old(History())
    {
      TellMiss(History(), log, dropped, reported, l);
      dropped := dropped + 1;
      log := log + [l];
      reported := reported + 1;
    }
  }

  /** What a reader has been given, at any moment and after any interleaving: every line of
      the log is in its place or counted, and so is every drop that was reported. */
  lemma ReaderIsToldEverything(sub: Subscriber, i: nat)
    requires sub.Valid()
    ensures Position(sub.History()) + sub.dropped == |sub.log|
    ensures sub.reported == MarkerTotal(sub.History()) + sub.dropped && |sub.ch| <= sub.capacity
    ensures i < |sub.History()| && sub.History()[i].stream != SYSTEM ==>
      0 <= Position(sub.History()[..i]) < |sub.log| && sub.History()[i] == sub.log[Position(sub.History()[..i])]
  {
    var history := sub.History();
    assert Told(history, sub.log, sub.dropped, sub.reported);
    HistoryCounts(history, sub.log[..|sub.log| - sub.dropped]);
    if i < |history| && history[i].stream != SYSTEM {
      HistoryPlacesEveryLine(history, sub.log[..|sub.log| - sub.dropped], i);
    }
  }

  lemma OneMore(got: seq<Line>, ch: seq<Line>, l: Line)
    ensures got + (ch + [l]) == got + ch + [l]
  {}

  lemma {:induction false} TailAccounts(tail: seq<Line>)
    requires forall l | l in tail :: l.stream != SYSTEM
    ensures Accounts(tail, tail) && MarkerTotal(tail) == 0
  {
    if tail != [] {
      var n := |tail| - 1;
      assert tail[n] in tail;
      assert forall l | l in tail[..n] :: l in tail;
      TailAccounts(tail[..n]);
    }
  }

  // ------------------------------------------------------------------- the sink

  ghost predicate NoMarkers(lines: seq<Line>) { forall l | l in lines :: l.stream != SYSTEM }

  ghost predicate Stands(s: Subscriber, log: seq<Line>, reported: nat)
    reads s
  {
    s.Valid() && !s.closed && s.log == log && s.reported == reported
  }

  function Trues(bs: seq<bool>): nat { if bs == [] then 0 else Trues(bs[..|bs| - 1]) + if bs[|bs| - 1] then 1 else 0 }

  predicate Distinct(order: seq<Subscriber>) { forall i, j | 0 <= i < j < |order| :: order[i] != order[j] }

  predicate Orders(order: seq<Subscriber>, subs: set<Subscriber>) {
    Distinct(order) && (forall s | s in subs :: s in order) && (forall s | s in order :: s in subs)
  }

  function Missers(order: seq<Subscriber>, missed: seq<bool>): set<Subscriber>
    requires |order| == |missed|
  {
    set i | 0 <= i < |order| && missed[i] :: order[i]
  }

  lemma MissersAt(order: seq<Subscriber>, missed: seq<bool>, i: nat)
    requires |order| == |missed| && Distinct(order) && i < |order|
    ensures order[i] in Missers(order, missed) <==> missed[i]
  {}

  lemma {:induction false} MissersCount(order: seq<Subscriber>, missed: seq<bool>)
    requires |order| == |missed| && Distinct(order)
    ensures |Missers(order, missed)| == Trues(missed)
  {
    if order != [] {
      var n := |order| - 1;
      MissersCount(order[..n], missed[..n]);
      var before := Missers(order[..n], missed[..n]);
      assert Missers(order, missed) == before + (if missed[n] then {order[n]} else {});
      assert order[n] !in before;
    }
  }

  /** Ranging over a map: each once, in no particular order. */
  method InSomeOrder(subs: set<Subscriber>) returns (order: seq<Subscriber>)
    ensures Orders(order, subs)
  {
    order := [];
    var todo := subs;
    while todo != {}
      invariant todo <= subs && Orders(order, subs - todo)
    {
      var s :| s in todo;
      order, todo := order + [s], todo - {s};
    }
  }

  class Sink {
    const ring: Ring
    var subs: set<Subscriber>
    var closed: bool
    var observed: nat   // drops the observer was told of

    ghost predicate Valid()
      reads this, ring, ring.buf, subs
    {
      && ring.Valid() && NoMarkers(ring.pushed)
      && (forall s | s in subs :: s.Valid() && !s.closed)
      && (closed ==> subs == {})
    }

    constructor (size: nat, blank: Line)
      requires size > 0
      ensures Valid() && fresh(ring) && fresh(ring.buf) && ring.pushed == [] && subs == {} && !closed && observed == 0
    {
      ring := new Ring(size, blank);
      subs, closed, observed := {}, false, 0;
    }

    /** One line to the ring and to every reader, waiting for none; `lost` are the readers that
        did not get it, and the observer is told of each. */
    method Append(l: Line) returns (ghost lost: set<Subscriber>)
      requires Valid() && l.stream != SYSTEM
      modifies this`observed, ring, ring.buf, subs
      ensures Valid() && lost <= subs && observed == old(observed) + |lost|
      ensures ring.pushed == if closed then old(ring.pushed) else old(ring.pushed) + [l]
      ensures forall s | s in old(subs) :: Stands(s, old(s.log) + [l], old(s.reported) + if s in lost then 1 else 0)
    {
      lost := {};
      if closed { return; }
      ring.Push(l);
      lost := ToAll(l);
    }

    method ToAll(l: Line) returns (ghost lost: set<Subscriber>)
      requires l.stream != SYSTEM && forall s | s in subs :: s.Valid() && !s.closed
      modifies this`observed, subs
      ensures lost <= subs && observed == old(observed) + |lost|
      ensures forall s | s in subs :: Stands(s, old(s.log) + [l], old(s.reported) + if s in lost then 1 else 0)
    {
      var order := InSomeOrder(subs);
      forall i | 0 <= i < |order| ensures order[i] in subs && order[i].Valid() && !order[i].closed {
        assert order[i] in order;
      }
      ghost var missed := Broadcast(order, l);
      lost := Missers(order, missed);
      MissersCount(order, missed);
      forall s | s in subs ensures Stands(s, old(s.log) + [l], old(s.reported) + if s in lost then 1 else 0) {
        assert s in order;
        var i :| 0 <= i < |order| && order[i] == s;
        MissersAt(order, missed, i);
        assert Stands(order[i], old(order[i].log) + [l], old(order[i].reported) + if missed[i] then 1 else 0);
      }
    }

    /** The readers one after the other; which of them missed the line. */
    method Broadcast(order: seq<Subscriber>, l: Line) returns (ghost missed: seq<bool>)
      requires l.stream != SYSTEM && Distinct(order) && forall i | 0 <= i < |order| ::
        order[i].Valid() && !order[i].closed
      modifies this`observed, order
      ensures |missed| == |order| && observed == old(observed) + Trues(missed)
      ensures forall i | 0 <= i < |order| :: Stands(order[i], old(order[i].log) + [l],
          old(order[i].reported) + if missed[i] then 1 else 0)
    {
      missed := [];
      for i := 0 to |order|
        invariant |missed| == i && observed == old(observed) + Trues(missed)
        invariant forall j | 0 <= j < i :: Stands(order[j], old(order[j].log) + [l],
            old(order[j].reported) + if missed[j] then 1 else 0)
        invariant forall j | i <= j < |order| :: Stands(order[j], old(order[j].log), old(order[j].reported))
      {
        var ok := SendTo(order[i], l, old(order[i].log), old(order[i].reported));
        assert (missed + [!ok])[..i] == missed;
        missed := missed + [!ok];
      }
    }

    method SendTo(sub: Subscriber, l: Line, ghost log: seq<Line>, ghost reported: nat) returns (ok: bool)
      requires l.stream != SYSTEM && Stands(sub, log, reported)
      modifies this`observed, sub
      ensures Stands(sub, log + [l], reported + if ok then 0 else 1)
      ensures observed == old(observed) + if ok then 0 else 1
    {
      ok := sub.Send(l);
      if !ok { observed := observed + 1; }
    }

    method Tail(n: int) returns (lines: seq<Line>)
      requires Valid()
      ensures EndOf(lines, ring.pushed, n, ring.buf.Length)
    {
      lines := ring.Last(n);
    }

    /** A reader of the last `tail` lines and of every line from now on. */
    method Subscribe(tail: int) returns (sub: Subscriber)
      requires Valid()
      modifies this`subs
      ensures Valid() && fresh(sub) && sub.Valid() && sub.got == [] && sub.dropped == 0 && sub.closed == closed
      ensures EndOf(sub.log, ring.pushed, tail, ring.buf.Length)
      ensures sub.ch == sub.log && sub.capacity == |sub.log| + 64
      ensures subs == if closed then old(subs) else old(subs) + {sub}
    {
      var preload := ring.Last(tail);
      sub := new Subscriber(preload);
      if closed {
        sub.closed := true;
        return;
      }
      subs := subs + {sub};
    }

    /** Ends one subscription; a second time does nothing. */
    method Cancel(sub: Subscriber)
      requires Valid()
      modifies this`subs, sub`closed
      ensures Valid() && subs == old(subs) - {sub} && sub.closed == (sub in old(subs) || old(sub.closed))
    {
      if sub in subs {
        subs := subs - {sub};
        sub.closed := true;
      }
    }

    /** Every reader's channel closes, each once, and later lines are discarded. */
    method Close()
      requires Valid()
      modifies this`subs, this`closed, subs
      ensures Valid() && closed && subs == {}
      ensures forall s | s in old(subs) :: s.closed && s.ch == old(s.ch) && s.dropped == old(s.dropped)
    {
      if closed { return; }
      closed := true;
      var todo := subs;
      subs := {};
      while todo != {}
        invariant todo <= old(subs) && closed && subs == {}
        invariant forall s | s in old(subs) ::
          s.closed == (s !in todo) && s.ch == old(s.ch) && s.dropped == old(s.dropped)
      {
        var sub :| sub in todo;
        sub.closed := true;
        todo := todo - {sub};
      }
    }
  }
}

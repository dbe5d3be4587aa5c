/** The rate-limited log sink: a message whose text was let through less than an interval ago is
    counted instead of written, unless it is an error. Times are integers read from the clock. */
module RateLimitedSink {
  import opened Common

  /** The level of errors: 0 is trace, then debug, info, warning, error, critical. */
  const ERR: nat := 4

  /** A line of the wrapped sink: the message's text, followed by "(+n suppressed)" if n > 0. */
  datatype Line = Line(key: string, level: nat, suppressed: nat, time: int)

  datatype Op =
    | Log(key: string, level: nat, now: int)
    | SetRateLimit(interval: int)

  datatype Sink = Sink(interval: int, last: map<string, int>, suppressed: map<string, nat>, output: seq<Line>)

  function Pending(s: Sink, key: string): nat {
    if key in s.suppressed then s.suppressed[key] else 0
  }

  /** What the calls do. */
  function After(s: Sink, op: Op): Sink {
    match op
    case SetRateLimit(interval) => s.(interval := interval)
    case Log(key, level, now) =>
      if level >= ERR then
        s.(output := s.output + [Line(key, level, 0, now)], last := s.last[key := now])
      else if key !in s.last || now - s.last[key] >= s.interval then
        s.(output := s.output + [Line(key, level, Pending(s, key), now)], last := s.last[key := now],
           suppressed := if Pending(s, key) > 0 then s.suppressed[key := 0] else s.suppressed)
      else
        s.(suppressed := s.suppressed[key := (Pending(s, key) + 1) % TWO_32])
  }

  class RateLimitedSink {
    var rateLimitInterval: int
    var lastLogTime: map<string, int>
    var suppressedCount: map<string, nat>
    var output: seq<Line>

    ghost function View(): Sink
      reads this
    {
      Sink(rateLimitInterval, lastLogTime, suppressedCount, output)
    }

    constructor (interval: int := 100)
      ensures View() == Sink(interval, map[], map[], [])
    {
      rateLimitInterval, lastLogTime, suppressedCount, output := interval, map[], map[], [];
    }

    method SetRateLimitInterval(interval: int)
      modifies this`rateLimitInterval
      ensures View() == After(old(View()), SetRateLimit(interval))
    {
      rateLimitInterval := interval;
    }

    method SinkIt(key: string, level: nat, now: int)
      modifies this
      ensures View() == After(old(View()), Log(key, level, now))
    {
      if level >= ERR {
        output := output + [Line(key, level, 0, now)];
        lastLogTime := lastLogTime[key := now];
        return;
      }
      if key !in lastLogTime || now - lastLogTime[key] >= rateLimitInterval {
        if key in suppressedCount && suppressedCount[key] > 0 {
          output := output + [Line(key, level, suppressedCount[key], now)];
          suppressedCount := suppressedCount[key := 0];
        } else {
          output := output + [Line(key, level, 0, now)];
        }
        lastLogTime := lastLogTime[key := now];
      } else {
        var count := if key in suppressedCount then suppressedCount[key] else 0;
        suppressedCount := suppressedCount[key := (count + 1) % TWO_32];
      }
    }
  }

  // ---------------------------------------------------------------- runs

  function Create(interval: int): Sink {
    Sink(interval, map[], map[], [])
  }

  function Run(s: Sink, ops: seq<Op>): Sink {
    if ops == [] then s else After(Run(s, ops[..|ops| - 1]), ops[|ops| - 1])
  }

  /** The calls that wrote a line, in order. */
  function Writers(s: Sink, ops: seq<Op>): seq<nat> {
    if ops == [] then []
    else
      var n := |ops| - 1;
      Writers(s, ops[..n]) + if Run(s, ops).output == Run(s, ops[..n]).output then [] else [n]
  }

  /** Each line is written by one call, in the order of the calls, and carries the text, the level and the time of the
      message logged by it. */
  lemma {:induction false} LinesCarryTheirMessages(interval: int, ops: seq<Op>)
    ensures var s := Create(interval);
            var lines, calls := Run(s, ops).output, Writers(s, ops);
            && |calls| == |lines|
            && (forall i :: 0 <= i < |calls| ==> calls[i] < |ops|)
            && (forall i, j :: 0 <= i < j < |calls| ==> calls[i] < calls[j])
            && (forall i :: 0 <= i < |calls| ==> ops[calls[i]] == Log(lines[i].key, lines[i].level, lines[i].time))
  {
    if ops != [] {
      var n, s := |ops| - 1, Create(interval);
      LinesCarryTheirMessages(interval, ops[..n]);
      AddsOneLine(Run(s, ops[..n]), ops[n]);
    }
  }

  lemma AddsOneLine(s: Sink, op: Op)
    ensures var t := After(s, op);
            t.output != s.output ==>
              && op.Log? && |t.output| == |s.output| + 1 && s.output <= t.output
              && op == Log(t.output[|s.output|].key, t.output[|s.output|].level, t.output[|s.output|].time)
  {
  }

  function Received(ops: seq<Op>, key: string): nat {
    if ops == [] then 0
    else
      var op := ops[|ops| - 1];
      Received(ops[..|ops| - 1], key) + if op.Log? && op.key == key then 1 else 0
  }

  function Emitted(output: seq<Line>, key: string): nat {
    if output == [] then 0
    else Emitted(output[..|output| - 1], key) + if output[|output| - 1].key == key then 1 else 0
  }

  /** The sum of the counts reported as "+n suppressed". */
  function ReportedSuppressed(output: seq<Line>, key: string): nat {
    if output == [] then 0
    else
      var line := output[|output| - 1];
      ReportedSuppressed(output[..|output| - 1], key) + if line.key == key then line.suppressed else 0
  }

  function Accounted(s: Sink, key: string): nat {
    Emitted(s.output, key) + ReportedSuppressed(s.output, key) + Pending(s, key)
  }

  /** A call accounts for exactly its own message, up to the wrap of the 32-bit counter. */
  lemma AfterAccounts(s: Sink, op: Op, key: string)
    requires Pending(s, key) < TWO_32
    ensures var before, after := Accounted(s, key), Accounted(After(s, op), key);
            var got := if op.Log? && op.key == key then 1 else 0;
            && Pending(After(s, op), key) < TWO_32
            && (after == before + got || after + TWO_32 == before + got)
            && (Pending(s, key) + 1 < TWO_32 ==> after == before + got)
  {
    if op.Log? && op.key != key {
    } else if op.Log? {
      if op.level >= ERR {
      } else if key !in s.last || op.now - s.last[key] >= s.interval {
        assert Pending(After(s, op), key) == 0;
      } else {
        ModOnce(Pending(s, key) + 1, TWO_32);
      }
    }
  }

  /** Every message is written, reported as suppressed, or pending: exactly so for a text received fewer
      than 2^32 times, and modulo 2^32 always, whatever the clock and the interval do. */
  lemma {:induction false} NothingIsLost(interval: int, ops: seq<Op>, key: string)
    ensures var s := Run(Create(interval), ops);
            && Pending(s, key) < TWO_32
            && (Accounted(s, key) - Received(ops, key)) % TWO_32 == 0
            && (Received(ops, key) < TWO_32 ==> Accounted(s, key) == Received(ops, key))
  {
    if ops != [] {
      var n := |ops| - 1;
      NothingIsLost(interval, ops[..n], key);
      AfterAccounts(Run(Create(interval), ops[..n]), ops[n], key);
    }
  }

  // ---------------------------------------------------------------- what is suppressed

  predicate Monotone(ops: seq<Op>) {
    forall i, j :: 0 <= i <= j < |ops| && ops[i].Log? && ops[j].Log? ==> ops[i].now <= ops[j].now
  }

  /** The latest line with each text is the one the sink remembers. */
  ghost predicate Remembers(s: Sink) {
    && (forall i :: 0 <= i < |s.output| ==> s.output[i].key in s.last && s.output[i].time <= s.last[s.output[i].key])
    && (forall k :: k in s.last ==> IsTimeOfLine(s.output, k, s.last[k]))
  }

  predicate IsTimeOfLine(output: seq<Line>, key: string, time: int) {
    exists i :: 0 <= i < |output| && output[i].key == key && output[i].time == time
  }

  ghost predicate Latest(s: Sink, now: int) {
    forall k :: k in s.last ==> s.last[k] <= now
  }

  lemma AfterRemembers(s: Sink, op: Op)
    requires Remembers(s) && (op.Log? ==> Latest(s, op.now))
    ensures Remembers(After(s, op))
    ensures op.Log? ==> Latest(After(s, op), op.now)
  {
    var t := After(s, op);
    if |t.output| > |s.output| {
      var line := t.output[|s.output|];
      assert t.output == s.output + [line] && t.last == s.last[line.key := line.time];
      forall k | k in t.last ensures IsTimeOfLine(t.output, k, t.last[k]) {
        if k == line.key {
          assert t.output[|s.output|].key == k;
        } else {
          assert IsTimeOfLine(s.output, k, s.last[k]);
          var i :| 0 <= i < |s.output| && s.output[i].key == k && s.output[i].time == s.last[k];
          assert t.output[i].key == k && t.output[i].time == t.last[k];
        }
      }
    }
  }

  lemma {:induction false} RunRemembers(interval: int, ops: seq<Op>, now: int)
    requires Monotone(ops) && forall i :: 0 <= i < |ops| && ops[i].Log? ==> ops[i].now <= now
    ensures Remembers(Run(Create(interval), ops)) && Latest(Run(Create(interval), ops), now)
  {
    if ops != [] {
      var n := |ops| - 1;
      if ops[n].Log? {
        RunRemembers(interval, ops[..n], ops[n].now);
      } else {
        RunRemembers(interval, ops[..n], now);
      }
      AfterRemembers(Run(Create(interval), ops[..n]), ops[n]);
    }
  }

  /** A non-error message is suppressed exactly when a line with its text, error or not, was written
      less than the current interval ago. */
  lemma SuppressedExactly(interval: int, ops: seq<Op>, key: string, level: nat, now: int)
    requires level < 4 && Monotone(ops) && forall i :: 0 <= i < |ops| && ops[i].Log? ==> ops[i].now <= now
    ensures var s := Run(Create(interval), ops);
            After(s, Log(key, level, now)).output == s.output <==>
            exists i :: 0 <= i < |s.output| && s.output[i].key == key && now - s.output[i].time < s.interval
  {
    var s := Run(Create(interval), ops);
    RunRemembers(interval, ops, now);
    if key in s.last {
      assert IsTimeOfLine(s.output, key, s.last[key]);
    }
    var t := After(s, Log(key, level, now));
    if t.output != s.output {
      assert |t.output| == |s.output| + 1;
    }
  }

  // ---------------------------------------------------------------- the rate

  predicate Limited(line: Line, key: string) {
    line.key == key && line.level < 4
  }

  /** Non-error lines with the same text are at least the interval apart. */
  ghost predicate Spaced(output: seq<Line>, key: string, interval: int) {
    forall i, j :: 0 <= i < j < |output| && Limited(output[i], key) && Limited(output[j], key) ==>
      output[i].time + interval <= output[j].time
  }

  predicate FixedInterval(ops: seq<Op>) {
    forall i :: 0 <= i < |ops| ==> ops[i].Log?
  }

  lemma {:induction false} RunSpaced(interval: int, ops: seq<Op>, key: string)
    requires Monotone(ops) && FixedInterval(ops)
    ensures var s := Run(Create(interval), ops); s.interval == interval && Spaced(s.output, key, interval)
  {
    if ops != [] {
      var n := |ops| - 1;
      RunSpaced(interval, ops[..n], key);
      RunRemembers(interval, ops[..n], ops[n].now);
    }
  }

  /** Non-error lines with a text in the window [from, to]. */
  function InWindow(output: seq<Line>, key: string, from: int, to: int): nat {
    if output == [] then 0
    else
      var line := output[|output| - 1];
      InWindow(output[..|output| - 1], key, from, to) +
      if Limited(line, key) && from <= line.time <= to then 1 else 0
  }

  lemma {:induction false} SpacedCount(output: seq<Line>, key: string, interval: nat, from: int, to: int)
      returns (last: nat)
    requires Spaced(output, key, interval)
    ensures InWindow(output, key, from, to) > 0 ==>
              && last < |output| && Limited(output[last], key) && from <= output[last].time <= to
              && (InWindow(output, key, from, to) - 1) * interval <= output[last].time - from
  {
    last := 0;
    if output != [] {
      var n := |output| - 1;
      last := SpacedCount(output[..n], key, interval, from, to);
      if Limited(output[n], key) && from <= output[n].time <= to {
        var before := InWindow(output[..n], key, from, to);
        if before > 0 {
          assert output[last].time + interval <= output[n].time;
          OneMore(before - 1, interval);
        }
        last := n;
      }
    }
  }

  lemma OneMore(n: nat, interval: nat)
    ensures (n + 1) * interval == n * interval + interval
  {
  }

  lemma FloorBound(n: nat, interval: nat, length: nat)
    requires interval > 0 && n * interval <= length
    ensures n <= length / interval
  {
    var q := length / interval;
    if n > q {
      assert n * interval == q * interval + (n - q) * interval;
      MulAtLeast(n - q, interval);
    }
  }

  lemma SpacedRate(output: seq<Line>, key: string, interval: nat, from: int, length: nat)
    requires interval > 0 && Spaced(output, key, interval)
    ensures InWindow(output, key, from, from + length) <= length / interval + 1
  {
    var last := SpacedCount(output, key, interval, from, from + length);
    var n := InWindow(output, key, from, from + length);
    if n > 0 {
      FloorBound(n - 1, interval, length);
    }
  }

  /** With a fixed positive interval and a clock that never goes back, a window of length `length` holds at
      most length / interval + 1 non-error lines with the same text. */
  lemma RateIsBounded(interval: nat, ops: seq<Op>, key: string, from: int, length: nat)
    requires interval > 0 && Monotone(ops) && FixedInterval(ops)
    ensures InWindow(Run(Create(interval), ops).output, key, from, from + length) <= length / interval + 1
  {
    RunSpaced(interval, ops, key);
    SpacedRate(Run(Create(interval), ops).output, key, interval, from, length);
  }

  /** No bound holds for errors: any number of them, at any times, are all written. */
  lemma {:induction false} ErrorsAreNeverSuppressed(interval: int, ops: seq<Op>)
    requires forall i :: 0 <= i < |ops| ==> ops[i].Log? && ops[i].level >= 4
    ensures var output := Run(Create(interval), ops).output;
            |output| == |ops| && forall i :: 0 <= i < |ops| ==> output[i] == Line(ops[i].key, ops[i].level, 0, ops[i].now)
  {
    if ops != [] {
      ErrorsAreNeverSuppressed(interval, ops[..|ops| - 1]);
    }
  }
}
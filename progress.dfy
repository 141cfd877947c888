/** The progress display drawn on standard error while an upload streams
    in: a byte counter, a redraw throttle, a smoothed rate and a 16-cell
    bar. Clock readings are given in milliseconds; what is written to
    standard error is returned as a sequence of `Emit`s. */
module Progress {
  import opened Base

  /** One write to standard error: raw bytes, a file name, or the rate
      line ` {mib:.0} MiB/s\r` (its floating-point digits are not
      modelled, only the value it shows). */
  datatype Emit = Raw(bytes: seq<byte>) | Name(text: string) | RateLine(mibPerS: real)

  const CLEAR_LINE: seq<byte> := [27, 91, 75] // ESC [ K
  const NEWLINE: seq<byte> := [10]
  const OPEN: byte := 91 // [
  const CLOSE: byte := 93 // ]
  const EMPTY: byte := 32 // space
  const FILLED: byte := 61 // =

  /** The bar before filling: clear-line, `[`, 16 blank cells, `]`. */
  const BAR_TEMPLATE: seq<byte> := CLEAR_LINE + [OPEN] + Repeat(EMPTY, 16) + [CLOSE]

  /** The number of cells: the template less its four-byte prefix and the
      closing bracket. */
  const BAR_CELLS: nat := |BAR_TEMPLATE| - 5

  /** Redraws happen at most every 100 ms. */
  const REDRAW_MS: nat := 100

  /** Weight of a new rate sample. */
  const SMOOTHING: real := 0.3

  /** Floor of an exact quotient. */
  lemma {:induction false} FloorOfQuotient(a: nat, b: nat)
    requires b > 0
    ensures (a as real / b as real).Floor == a / b
  {
    var q, r := a / b, a % b;
    assert a == q * b + r;
    assert a as real == q as real * b as real + r as real;
    assert a as real / b as real == q as real + r as real / b as real;
    assert 0.0 <= r as real / b as real < 1.0;
  }

  /** The float expression of the partial bar, in exact arithmetic, is an
      integer quotient. */
  lemma {:induction false} FillFloor(soFar: nat, total: nat)
    requires 0 < total && soFar < total
    ensures var ratio := soFar as real / total as real;
      ((if ratio < 1.0 then ratio else 1.0) * BAR_CELLS as real).Floor == (BAR_CELLS * soFar) / total
  {
    var ratio := soFar as real / total as real;
    assert ratio * total as real == soFar as real;
    assert ratio < 1.0;
    assert ratio * BAR_CELLS as real == (BAR_CELLS * soFar) as real / total as real;
    FloorOfQuotient(BAR_CELLS * soFar, total);
  }

  lemma {:induction false} DivBounds(a: nat, b: nat)
    requires b > 0
    ensures (a / b) * b <= a < (a / b + 1) * b
  {
  }

  /** How many cells the bar fills: all of them when the total is unknown
      (zero) or reached, otherwise the completed fraction of 16 cells,
      rounded down. */
  function FillCount(soFar: nat, total: nat): (n: nat)
    ensures n <= BAR_CELLS
    ensures n == BAR_CELLS <==> total == 0 || soFar >= total
    ensures 0 < total && soFar < total ==> n * total <= BAR_CELLS * soFar < (n + 1) * total
  {
    if total == 0 || soFar >= total then BAR_CELLS
    else
      var ratio := soFar as real / total as real;
      FillFloor(soFar, total);
      DivBounds(BAR_CELLS * soFar, total);
      MulMonotone(soFar + 1, total, BAR_CELLS);
      ((if ratio < 1.0 then ratio else 1.0) * BAR_CELLS as real).Floor
  }

  lemma {:induction false} MulMonotone(x: nat, y: nat, t: nat)
    requires x <= y
    ensures x * t <= y * t
  {
    assert y * t == x * t + (y - x) * t;
  }

  /** More bytes never empty a cell. */
  lemma {:induction false} FillMonotone(a: nat, b: nat, total: nat)
    requires a <= b
    ensures FillCount(a, total) <= FillCount(b, total)
  {
    if 0 < total && b < total {
      var na, nb := FillCount(a, total), FillCount(b, total);
      if nb < na {
        MulMonotone(nb + 1, na, total);
        MulMonotone(a, b, BAR_CELLS);
      }
    }
  }

  /** The bar with `fill` cells set to `=`: filling overwrites exactly the
      first `fill` cells; the clear-line prefix, the brackets and the
      remaining cells are the template's. */
  function Bar(fill: nat): (r: seq<byte>)
    requires fill <= BAR_CELLS
    ensures |r| == |BAR_TEMPLATE|
    ensures forall i :: 0 <= i < |BAR_TEMPLATE| ==> r[i] == if 4 <= i < 4 + fill then FILLED else BAR_TEMPLATE[i]
  {
    BAR_TEMPLATE[..4] + Repeat(FILLED, fill) + Repeat(EMPTY, BAR_CELLS - fill) + [CLOSE]
  }

  /** Draws the bar in a fresh copy of the template, filling cell by cell. */
  method RenderBar(soFar: nat, total: nat) returns (bar: seq<byte>)
    ensures bar == Bar(FillCount(soFar, total))
  {
    var buf := new byte[|BAR_TEMPLATE|](i => if 0 <= i < |BAR_TEMPLATE| then BAR_TEMPLATE[i] else 0);
    var fill := FillCount(soFar, total);
    for k := 0 to fill
      invariant forall i :: 0 <= i < buf.Length ==>
        buf[i] == if 4 <= i < 4 + k then FILLED else BAR_TEMPLATE[i]
    {
      buf[4 + k] := FILLED;
    }
    bar := buf[..];
  }

  /** Milliseconds since `last`; a clock reading before it counts as none. */
  function Elapsed(last: nat, now: nat): nat
  {
    if now >= last then now - last else 0
  }

  /** The rate after a sample of `bytes` over `elapsedMs`: the sample itself
      the first time, afterwards a move 30% of the way from the old rate
      toward the sample. It is never negative. */
  function Smooth(prev: real, bytes: nat, elapsedMs: nat): (r: real)
    requires elapsedMs > 0
    ensures r >= 0.0
    ensures prev < 0.0 ==> r * elapsedMs as real == bytes as real * 1000.0
    ensures prev >= 0.0 ==> r - prev == SMOOTHING * ((bytes as real * 1000.0) / elapsedMs as real - prev)
  {
    var sample := (bytes as real) / (elapsedMs as real / 1000.0);
    if prev < 0.0 then sample else SMOOTHING * sample + (1.0 - SMOOTHING) * prev
  }

  /** What a redraw writes: the bar, then the rate in MiB/s. */
  function Frame(soFar: nat, total: nat, bytesPerS: real): seq<Emit>
  {
    [Raw(Bar(FillCount(soFar, total))), RateLine(bytesPerS / (1024.0 * 1024.0))]
  }

  /** The display's counters: the count, the clock reading (ms) and the
      count at the last redraw, and the smoothed rate. */
  datatype Counters = Counters(soFar: nat, lastUpdate: nat, lastUpdateBytes: nat, bytesPerS: real)

  /** The watermark never passes the count; the rate is unknown (-1) or a
      rate. */
  predicate Sane(c: Counters)
  {
    c.lastUpdateBytes <= c.soFar && (c.bytesPerS == -1.0 || c.bytesPerS >= 0.0)
  }

  type Display = c: Counters | Sane(c) witness Counters(0, 0, 0, -1.0)

  /** The counters of a new display. */
  function Start(now: nat): Display
  {
    Counters(0, now, 0, -1.0)
  }

  /** The counters after counting a chunk at clock reading `now`: at least
      100 ms after the last redraw the watermark moves up to the count,
      the rate takes a sample and the time is recorded; before that only
      the count changes. */
  function Advance(c: Display, chunk: nat, now: nat): (r: Display)
    ensures r.soFar == c.soFar + chunk
    ensures c.lastUpdateBytes <= r.lastUpdateBytes
    ensures Elapsed(c.lastUpdate, now) < REDRAW_MS <==> r == c.(soFar := r.soFar)
    ensures Elapsed(c.lastUpdate, now) >= REDRAW_MS ==> r.lastUpdateBytes == r.soFar && r.lastUpdate == now
  {
    var soFar := c.soFar + chunk;
    var elapsed := Elapsed(c.lastUpdate, now);
    if elapsed >= REDRAW_MS then
      Counters(soFar, now, soFar, Smooth(c.bytesPerS, soFar - c.lastUpdateBytes, elapsed))
    else c.(soFar := soFar)
  }

  class Progress {
    var soFar: nat
    const total: nat
    /** Clock reading (ms) of the last redraw. */
    var lastUpdate: nat
    /** `soFar` at the last redraw. */
    var lastUpdateBytes: nat
    /** Smoothed rate; -1 until the first redraw. */
    var bytesPerS: real

    /** The counters as a value. */
    function Snapshot(): Counters
      reads this
    {
      Counters(soFar, lastUpdate, lastUpdateBytes, bytesPerS)
    }

    ghost predicate Valid()
      reads this
    {
      Sane(Snapshot())
    }

    /** `Progress::new`: nothing counted yet, rate unknown. */
    constructor(total: nat, now: nat)
      ensures Valid()
      ensures this.total == total && soFar == 0 && lastUpdateBytes == 0
      ensures bytesPerS == -1.0 && lastUpdate == now
      ensures Snapshot() == Start(now)
    {
      this.total := total;
      soFar := 0;
      lastUpdate := now;
      lastUpdateBytes := 0;
      bytesPerS := -1.0;
    }

    /** Redraws the bar and the rate. */
    method Draw() returns (out: seq<Emit>)
      ensures out == Frame(soFar, total, bytesPerS)
    {
      var bar := RenderBar(soFar, total);
      out := [Raw(bar), RateLine(bytesPerS / (1024.0 * 1024.0))];
    }

    /** Counts a chunk; at least 100 ms after the last redraw it takes a
        rate sample, moves the watermark up to the count and redraws. */
    method Update(chunk: nat, now: nat) returns (out: seq<Emit>)
      requires Valid()
      modifies this
      ensures Valid()
      ensures soFar == old(soFar) + chunk
      ensures Elapsed(old(lastUpdate), now) >= REDRAW_MS ==>
        lastUpdateBytes == soFar && lastUpdate == now &&
        bytesPerS == Smooth(old(bytesPerS), soFar - old(lastUpdateBytes), Elapsed(old(lastUpdate), now)) &&
        out == Frame(soFar, total, bytesPerS)
      ensures Elapsed(old(lastUpdate), now) < REDRAW_MS ==>
        lastUpdateBytes == old(lastUpdateBytes) && lastUpdate == old(lastUpdate) &&
        bytesPerS == old(bytesPerS) && out == []
      ensures Snapshot() == Advance(old(Snapshot()), chunk, now)
    {
      soFar := soFar + chunk;
      var elapsed := Elapsed(lastUpdate, now);
      out := [];
      if elapsed >= REDRAW_MS {
        var sinceUpdate := soFar - lastUpdateBytes;
        lastUpdateBytes := soFar;
        bytesPerS := Smooth(bytesPerS, sinceUpdate, elapsed);
        lastUpdate := now;
        out := Draw();
      }
    }

    /** Announces a new file: clear the line, write the name and a newline,
        then redraw. The counters are untouched. */
    method NewFile(name: string) returns (out: seq<Emit>)
      ensures out == [Raw(CLEAR_LINE), Name(name), Raw(NEWLINE)] + Frame(soFar, total, bytesPerS)
    {
      var frame := Draw();
      out := [Raw(CLEAR_LINE), Name(name), Raw(NEWLINE)] + frame;
    }
  }
}

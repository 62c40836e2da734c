/** Progress of a transcode: the percentages read from the encoder, and the record's bands of ten that
    are persisted while every tick stays visible in memory.
*/
module Progress {

  import opened Wrappers

  function Clamp(percent: int): int {
    if percent < 0 then 0 else if percent > 100 then 100 else percent
  }

  /** Does a tick reach the store? */
  predicate Due(percent: int, lastPersisted: int) {
    percent == 100 || percent / 10 != lastPersisted / 10
  }

  // ---------- The callback ----------

  /** The closure's own variable, the record in memory, the record in the store, and the writes so far. */
  datatype Meter = Meter(lastPersisted: int, live: int, stored: int, writes: nat)

  /** A reported percentage, and whether a write to the store would succeed at that moment. */
  datatype Tick = Tick(percent: int, writable: bool)

  function Report(m: Meter, t: Tick): Meter {
    var p := Clamp(t.percent);
    if Due(p, m.lastPersisted) then Meter(p, p, if t.writable then p else m.stored, m.writes + 1)
    else m.(live := p)
  }

  function Play(ticks: seq<Tick>): Meter {
    if ticks == [] then Meter(0, 0, 0, 0) else Report(Play(ticks[..|ticks| - 1]), ticks[|ticks| - 1])
  }

  /** The state that onProgress closes over, over a store that copies what it is given. */
  class Reporter {
    var lastPersisted: int
    var progress: int
    var stored: int
    ghost var writes: nat
    ghost var ticks: seq<Tick>

    constructor ()
      ensures Valid() && ticks == []
    {
      lastPersisted, progress, stored := 0, 0, 0;
      writes, ticks := 0, [];
    }

    ghost predicate Valid()
      reads this
    {
      Meter(lastPersisted, progress, stored, writes) == Play(ticks)
    }

    method OnProgress(percent: int, writable: bool) returns (published: int)
      requires Valid()
      modifies this
      ensures Valid() && ticks == old(ticks) + [Tick(percent, writable)]
      ensures published == progress && 0 <= published <= 100
      ensures published == if percent < 0 then 0 else if percent > 100 then 100 else percent
      ensures published / 10 != old(progress) / 10 || published == 100 ==> writes == old(writes) + 1
      // Whatever failed so far, a successful write leaves no gap between store and memory.
      ensures writable && writes > old(writes) ==> stored == progress
    {
      published := percent;
      if published < 0 {
        published := 0;
      }
      if published > 100 {
        published := 100;
      }
      progress := published;
      if published == 100 || published / 10 != lastPersisted / 10 {
        lastPersisted := published;
        if writable {
          stored := progress;
        }
        writes := writes + 1;
      }
      ticks := ticks + [Tick(percent, writable)];
      assert ticks[..|ticks| - 1] == old(ticks);
    }
  }

  /** Did the last write that was tried succeed? Before any, the record stores the 0 it started with. */
  predicate LastWriteLanded(ticks: seq<Tick>) {
    ticks == [] ||
    var most, t := ticks[..|ticks| - 1], ticks[|ticks| - 1];
    if Due(Clamp(t.percent), Play(most).lastPersisted) then t.writable else LastWriteLanded(most)
  }

  lemma {:induction false} InBand(ticks: seq<Tick>)
    ensures var m := Play(ticks); 0 <= m.live <= 100 && m.lastPersisted / 10 == m.live / 10
    ensures LastWriteLanded(ticks) ==> Play(ticks).stored == Play(ticks).lastPersisted
  {
    if ticks != [] {
      InBand(ticks[..|ticks| - 1]);
    }
  }

  /** Stored and live progress share their band of ten after every tick, for every tick sequence, as long
      as the last write that was due got through. */
  lemma {:induction false} SameBand(ticks: seq<Tick>)
    requires LastWriteLanded(ticks)
    ensures Play(ticks).stored / 10 == Play(ticks).live / 10
    ensures Play(ticks).live - 10 < Play(ticks).stored < Play(ticks).live + 10
  {
    InBand(ticks);
  }

  lemma {:induction false} AllWritesLand(ticks: seq<Tick>)
    requires forall i :: 0 <= i < |ticks| ==> ticks[i].writable
    ensures LastWriteLanded(ticks)
  {
    if ticks != [] {
      AllWritesLand(ticks[..|ticks| - 1]);
    }
  }

  /** As long as every write gets through, a crash loses at most one band of progress. */
  lemma {:induction false} CrashLosesOneBand(ticks: seq<Tick>)
    requires forall i :: 0 <= i < |ticks| ==> ticks[i].writable
    ensures Play(ticks).stored / 10 == Play(ticks).live / 10
    ensures Play(ticks).live - 10 < Play(ticks).stored < Play(ticks).live + 10
  {
    AllWritesLand(ticks);
    SameBand(ticks);
  }

  ghost predicate NonDecreasing(ticks: seq<Tick>) {
    forall i, j :: 0 <= i < j < |ticks| ==> ticks[i].percent <= ticks[j].percent
  }

  function Hundreds(ticks: seq<Tick>): nat {
    if ticks == [] then 0
    else Hundreds(ticks[..|ticks| - 1]) + (if ticks[|ticks| - 1].percent >= 100 then 1 else 0)
  }

  /** A transcode whose ticks never go back costs at most nine writes and one for each tick at 100. */
  lemma {:induction false} FewWrites(ticks: seq<Tick>)
    requires NonDecreasing(ticks)
    ensures Play(ticks).writes <= 9 + Hundreds(ticks)
    ensures ticks != [] ==> Play(ticks).lastPersisted <= Play(ticks).live == Clamp(ticks[|ticks| - 1].percent)
    ensures Play(ticks).live < 100 ==> Play(ticks).writes <= Play(ticks).lastPersisted / 10
  {
    if ticks != [] {
      var most := ticks[..|ticks| - 1];
      FewWrites(most);
      InBand(most);
    }
  }

  // ---------- The percentages ----------

  /** Go's conversion of a float to an int: towards zero. */
  function Truncate(x: real): int {
    if x >= 0.0 then x.Floor else -((-x).Floor)
  }

  /** How much of the source, which lasts `duration` seconds, the encoder has put out. */
  function Percent(microseconds: int, duration: real): int
    requires duration > 0.0
  {
    Truncate(microseconds as real / 1_000_000.0 / duration * 100.0)
  }

  lemma QuotientMonotone(x: real, y: real, d: real)
    requires x <= y && d > 0.0
    ensures x / d <= y / d
  {
  }

  lemma PercentMonotone(a: int, b: int, duration: real)
    requires a <= b && duration > 0.0
    ensures Percent(a, duration) <= Percent(b, duration)
  {
    QuotientMonotone(a as real / 1_000_000.0, b as real / 1_000_000.0, duration);
  }

  /** What a reported percentage means: the share of the source put out so far, rounded down; 100 exactly once
      all of it is. */
  predicate IsShare(p: int, t: int, duration: real) {
    var whole := duration * 1_000_000.0;
    if t as real >= whole then p == 100
    else 0 <= p < 100 && p as real * whole <= 100.0 * t as real < (p + 1) as real * whole
  }

  lemma Quotient(x: real, d: real)
    requires d > 0.0
    ensures x / d * d == x
  {
  }

  lemma Scaled(a: real, b: real, d: real)
    requires d > 0.0
    ensures a <= b <==> a * d <= b * d
    ensures a < b <==> a * d < b * d
  {
  }

  lemma Regrouped(a: real, b: real, c: real)
    ensures a * (b * c) == a * b * c && a * b * c == a * c * b
  {
  }

  /** q of the whole is put out at time t. */
  lemma ShareOf(t: real, duration: real)
    requires duration > 0.0
    ensures t / 1_000_000.0 / duration * (duration * 1_000_000.0) == t
  {
    var q := t / 1_000_000.0 / duration;
    Regrouped(q, duration, 1_000_000.0);
    Quotient(t / 1_000_000.0, duration);
    Quotient(t, 1_000_000.0);
  }

  lemma SharesScale(low: real, high: real, q: real, t: real, whole: real)
    requires whole > 0.0 && q * whole == t && low <= q * 100.0 < high
    ensures low * whole <= 100.0 * t < high * whole
    ensures t >= whole <==> q >= 1.0
    ensures t >= 0.0 <==> q >= 0.0
  {
    var x := q * 100.0;
    Regrouped(q, 100.0, whole);
    assert x * whole == 100.0 * t;
    Scaled(low, x, whole);
    Scaled(x, high, whole);
    Scaled(1.0, q, whole);
    Scaled(0.0, q, whole);
  }

  lemma PercentIsShare(t: int, duration: real)
    requires duration > 0.0 && t >= 0
    ensures IsShare(if Percent(t, duration) > 100 then 100 else Percent(t, duration), t, duration)
  {
    var q := t as real / 1_000_000.0 / duration;
    var p := (q * 100.0).Floor;
    ShareOf(t as real, duration);
    Scaled(0.0, duration, 1_000_000.0);
    SharesScale(p as real, (p + 1) as real, q, t as real, duration * 1_000_000.0);
    assert Percent(t, duration) == p;
  }

  /** A line the encoder prints: its key, and its value where that is a 64-bit integer. */
  datatype Line = Malformed | Line(key: string, value: Option<int>)

  predicate Measures(line: Line) {
    line.Line? && line.key == "out_time_us" && line.value.Some?
  }

  /** The times that the encoder's output names, in order. */
  function Times(lines: seq<Line>): (times: seq<int>) {
    if lines == [] then []
    else
      var last := lines[|lines| - 1];
      Times(lines[..|lines| - 1]) + (if Measures(last) then [last.value.value] else [])
  }

  /** What is reported for these times: nothing for a negative percentage, at most 100. */
  function Reported(times: seq<int>, duration: real): (percents: seq<int>)
    requires duration > 0.0
  {
    if times == [] then []
    else
      var before := Reported(times[..|times| - 1], duration);
      var percent := Percent(times[|times| - 1], duration);
      if percent > 100 then before + [100] else if percent >= 0 then before + [percent] else before
  }

  /** The reading loop of Transcode and TranscodeHLS, with the closing tick of a successful encoder. */
  method ReadProgress(lines: seq<Line>, duration: real, succeeds: bool) returns (ticks: seq<int>)
    ensures ticks == (if duration > 0.0 then Reported(Times(lines), duration) else []) +
                     (if succeeds then [100] else [])
    // For an encoder whose clock does not run below zero, in terms of the lines alone:
    ensures duration > 0.0 && (forall i :: 0 <= i < |lines| && Measures(lines[i]) ==> lines[i].value.value >= 0) ==>
      && |ticks| == |Times(lines)| + (if succeeds then 1 else 0)
      && (succeeds ==> ticks[|ticks| - 1] == 100)
      && (forall i :: 0 <= i < |Times(lines)| ==> IsShare(ticks[i], Times(lines)[i], duration))
    ensures forall t :: Line("out_time_us", Some(t)) in lines ==> t in Times(lines)
    ensures forall t :: t in Times(lines) ==> Line("out_time_us", Some(t)) in lines
  {
    ticks := [];
    for n := 0 to |lines|
      invariant ticks == if duration > 0.0 then Reported(Times(lines[..n]), duration) else []
    {
      var line := lines[n];
      assert lines[..n + 1][..n] == lines[..n];
      assert !Measures(line) ==> Times(lines[..n + 1]) == Times(lines[..n]);
      if !line.Line? || line.key != "out_time_us" || duration <= 0.0 || line.value.None? {
        continue;
      }
      ghost var before, after := Times(lines[..n]), Times(lines[..n + 1]);
      assert after[..|after| - 1] == before && after[|after| - 1] == line.value.value;
      var percent := Percent(line.value.value, duration);
      if percent > 100 {
        percent := 100;
      }
      if percent >= 0 {
        ticks := ticks + [percent];
      }
    }
    assert lines[..|lines|] == lines;
    TimesAre(lines);
    if duration > 0.0 && forall t :: t in Times(lines) ==> t >= 0 {
      SharesReported(Times(lines), duration);
    }
    if succeeds {
      ticks := ticks + [100];
    }
  }

  /** The times are those of the well-formed lines. */
  lemma {:induction false} TimesAre(lines: seq<Line>)
    ensures forall t :: Line("out_time_us", Some(t)) in lines <==> t in Times(lines)
  {
    if lines != [] {
      var most, last := lines[..|lines| - 1], lines[|lines| - 1];
      TimesAre(most);
      assert forall l :: l in lines <==> l in most || l == last;
    }
  }

  lemma {:induction false} SharesReported(times: seq<int>, duration: real)
    requires duration > 0.0 && forall t :: t in times ==> t >= 0
    ensures |Reported(times, duration)| == |times|
    ensures forall i :: 0 <= i < |times| ==> IsShare(Reported(times, duration)[i], times[i], duration)
  {
    if times != [] {
      var most, last := times[..|times| - 1], times[|times| - 1];
      assert last in times && forall t :: t in most ==> t in times;
      SharesReported(most, duration);
      PercentIsShare(last, duration);
      PercentMonotone(0, last, duration);
    }
  }

  ghost predicate Sorted(s: seq<int>) {
    forall i, j :: 0 <= i < j < |s| ==> s[i] <= s[j]
  }

  /** Percentages lie in 0..100 and follow the encoder's clock: sorted times give sorted percentages. */
  lemma {:induction false} ReportedInOrder(times: seq<int>, duration: real)
    requires duration > 0.0
    ensures forall p :: p in Reported(times, duration) ==> 0 <= p <= 100
    ensures Sorted(times) ==> Sorted(Reported(times, duration))
    ensures var r := Reported(times, duration);
      r != [] && Sorted(times) ==> r[|r| - 1] <= Percent(times[|times| - 1], duration)
  {
    if times != [] {
      var most, last := times[..|times| - 1], times[|times| - 1];
      ReportedInOrder(most, duration);
      if most != [] && Sorted(times) {
        PercentMonotone(most[|most| - 1], last, duration);
      }
    }
  }

  /** Nothing that counts is skipped: one percentage for every time that is not negative. */
  lemma {:induction false} ReportedComplete(times: seq<int>, duration: real)
    requires duration > 0.0 && forall i :: 0 <= i < |times| ==> times[i] >= 0
    ensures |Reported(times, duration)| == |times|
    ensures forall i :: 0 <= i < |times| ==> Reported(times, duration)[i] == Clamp(Percent(times[i], duration))
  {
    if times != [] {
      ReportedComplete(times[..|times| - 1], duration);
      PercentMonotone(0, times[|times| - 1], duration);
    }
  }

  /** Put together: a successful transcode whose encoder clock never runs back. */
  lemma TranscodeWritesLittle(times: seq<int>, duration: real, ticks: seq<Tick>)
    requires duration > 0.0 && Sorted(times)
    requires |ticks| == |Reported(times, duration)| + 1
    requires forall i :: 0 <= i < |ticks| ==> ticks[i].percent == (Reported(times, duration) + [100])[i]
    ensures Play(ticks).writes <= 9 + Hundreds(ticks)
    ensures Play(ticks).live == 100
  {
    ReportedInOrder(times, duration);
    FewWrites(ticks);
  }
}

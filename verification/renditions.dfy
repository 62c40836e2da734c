/** Which renditions are planned for a source, and the size a rendition is given when it cannot be
    measured.
*/
module Renditions {

  import opened Wrappers
  import Jobs
  import Playlist

  datatype Rendition = Rendition(name: string, shortEdge: int, bitrate: string)

  datatype Source = Source(width: int, height: int)

  function DefaultLadder(): seq<Rendition> {
    [Rendition("1080p", 1080, "5000k"), Rendition("720p", 720, "2800k"),
     Rendition("480p", 480, "1400k"), Rendition("360p", 360, "800k")]
  }

  predicate Landscape(src: Source) {
    src.width >= src.height
  }

  function ShortEdge(src: Source): int {
    if Landscape(src) then src.height else src.width
  }

  function LongEdge(src: Source): int {
    if Landscape(src) then src.width else src.height
  }

  /** The rungs no larger than the edge, in ladder order. */
  function Fitting(ladder: seq<Rendition>, edge: int): seq<Rendition> {
    if ladder == [] then []
    else
      var last := ladder[|ladder| - 1];
      Fitting(ladder[..|ladder| - 1], edge) + (if last.shortEdge <= edge then [last] else [])
  }

  function Plan(src: Source, ladder: seq<Rendition>): seq<Rendition> {
    var picked := Fitting(ladder, ShortEdge(src));
    if picked == [] then [Rendition("source", ShortEdge(src), "1400k")] else picked
  }

  method PlanRenditions(src: Source, ladder: seq<Rendition>) returns (picked: seq<Rendition>)
    ensures picked == Plan(src, ladder)
    ensures picked != [] && forall r :: r in picked ==> r.shortEdge <= ShortEdge(src)
    ensures forall r :: r in ladder && r.shortEdge <= ShortEdge(src) ==> r in picked
  {
    var landscape := src.width >= src.height;
    var shortEdge := src.height;
    if !landscape {
      shortEdge := src.width;
    }
    picked := [];
    for n := 0 to |ladder|
      invariant picked == Fitting(ladder[..n], shortEdge)
      invariant forall r :: r in picked ==> r.shortEdge <= shortEdge
      invariant forall i :: 0 <= i < n && ladder[i].shortEdge <= shortEdge ==> ladder[i] in picked
    {
      assert ladder[..n + 1][..n] == ladder[..n];
      if ladder[n].shortEdge <= shortEdge {
        picked := picked + [ladder[n]];
      }
    }
    assert ladder[..|ladder|] == ladder;
    if |picked| == 0 {
      picked := [Rendition("source", shortEdge, "1400k")];
    }
  }

  /** A larger source keeps every rung, in the same order, that a smaller one got: its plan, restricted
      to what fits the smaller one, is the smaller one's plan. */
  lemma {:induction false} LargerSourceKeepsRungs(ladder: seq<Rendition>, small: int, large: int)
    requires small <= large
    ensures Fitting(Fitting(ladder, large), small) == Fitting(ladder, small)
  {
    if ladder != [] {
      var most, last := ladder[..|ladder| - 1], ladder[|ladder| - 1];
      LargerSourceKeepsRungs(most, small, large);
      if last.shortEdge <= large {
        assert (Fitting(most, large) + [last])[..|Fitting(most, large)|] == Fitting(most, large);
      } else {
        assert Fitting(ladder, large) == Fitting(most, large);
      }
    }
  }

  // ---------- Dimensions ----------

  /** Go's math.Round of the quotient n / d, both positive: to the nearest, halves up. */
  function Round(n: nat, d: nat): nat
    requires d > 0
  {
    (2 * n + d) / (2 * d)
  }

  function RoundEven(n: nat, d: nat): nat
    requires d > 0
  {
    if Round(n, d) % 2 != 0 then Round(n, d) + 1 else Round(n, d)
  }

  lemma RoundBounds(n: nat, d: nat)
    requires d > 0
    ensures 2 * n - d < 2 * (d * Round(n, d)) <= 2 * n + d
  {
    var q, r := (2 * n + d) / (2 * d), (2 * n + d) % (2 * d);
    assert 2 * n + d == 2 * d * q + r;
  }

  /** Even, and within [-1/2, 3/2] of the exact quotient. */
  lemma RoundEvenBounds(n: nat, d: nat)
    requires d > 0
    ensures RoundEven(n, d) % 2 == 0
    ensures 2 * n - d <= 2 * (d * RoundEven(n, d)) <= 2 * n + 3 * d
  {
    RoundBounds(n, d);
    assert d * (Round(n, d) + 1) == d * Round(n, d) + d;
  }

  predicate Measured(size: Option<(int, int)>) {
    size.Some? && size.value.0 > 0 && size.value.1 > 0
  }

  /** actualDimensions: what was measured, or the scaled source with its long edge rounded. */
  function Dimensions(src: Source, measured: Option<(int, int)>, shortEdge: nat): (int, int)
    requires src.width > 0 && src.height > 0
  {
    if Measured(measured) then measured.value
    else if Landscape(src) then (RoundEven(src.width * shortEdge, src.height), shortEdge)
    else (shortEdge, RoundEven(src.height * shortEdge, src.width))
  }

  /** What ffprobe measured is used as it is, unless it is no size at all. */
  lemma MeasuredFirst(src: Source, w: int, h: int, edge: nat)
    requires src.width > 0 && src.height > 0
    ensures Dimensions(src, Some((w, h)), edge) == if w > 0 && h > 0 then (w, h) else Dimensions(src, None, edge)
  {
  }

  lemma Ordered(a: nat, b: nat, d: nat)
    ensures a <= b ==> a * d <= b * d
  {
  }

  /** Rounding stays between whole numbers that enclose the quotient. */
  lemma RoundBetween(n: nat, d: nat, low: nat, high: nat)
    requires d > 0 && low * d <= n <= high * d
    ensures low <= Round(n, d) <= high
  {
    RoundBounds(n, d);
    var r := Round(n, d);
    Ordered(r + 1, low, d);
    Ordered(high + 1, r, d);
    assert (r + 1) * d == r * d + d && (high + 1) * d == high * d + d;
  }

  /** The computed long edge keeps the source's shape to within [-1/2, 3/2], is even, is no shorter than
      the short edge, and exceeds the source's long edge by one at most, where nothing is upscaled. */
  lemma LongEdgeFits(long: nat, short: nat, edge: nat)
    requires 0 < short <= long && edge <= short
    ensures var scaled := RoundEven(long * edge, short);
      scaled % 2 == 0 && edge <= scaled <= long + 1 &&
      2 * (long * edge) - short <= 2 * (short * scaled) <= 2 * (long * edge) + 3 * short
  {
    RoundEvenBounds(long * edge, short);
    Ordered(short, long, edge);
    Ordered(edge, short, long);
    RoundBetween(long * edge, short, edge, long);
  }

  /** The same for a whole source, and portrait mirrors landscape. */
  lemma ComputedDimensions(src: Source, measured: Option<(int, int)>, edge: nat)
    requires src.width > 0 && src.height > 0 && edge <= ShortEdge(src) && !Measured(measured)
    ensures var (w, h) := Dimensions(src, measured, edge);
      var long := if Landscape(src) then w else h;
      && (if Landscape(src) then h else w) == edge
      && long % 2 == 0 && edge <= long <= LongEdge(src) + 1
      && 2 * (LongEdge(src) * edge) - ShortEdge(src) <= 2 * (ShortEdge(src) * long)
           <= 2 * (LongEdge(src) * edge) + 3 * ShortEdge(src)
    ensures src.width != src.height ==>
      var (w, h) := Dimensions(src, measured, edge);
      Dimensions(Source(src.height, src.width), measured, edge) == (h, w)
  {
    LongEdgeFits(LongEdge(src), ShortEdge(src), edge);
  }

  // ---------- Directories ----------

  predicate Distinct(renditions: seq<Rendition>) {
    forall i, j :: 0 <= i < j < |renditions| ==> Jobs.HlsDir(renditions[i].name) != Jobs.HlsDir(renditions[j].name)
  }

  predicate PlainDirectories(renditions: seq<Rendition>) {
    forall i :: 0 <= i < |renditions| ==> Playlist.PlainName(Jobs.HlsDir(renditions[i].name))
  }

  lemma {:induction false} FittingDistinct(ladder: seq<Rendition>, edge: int)
    requires Distinct(ladder) && PlainDirectories(ladder)
    ensures forall r :: r in Fitting(ladder, edge) ==> r in ladder
    ensures Distinct(Fitting(ladder, edge)) && PlainDirectories(Fitting(ladder, edge))
  {
    if ladder != [] {
      var most, last := ladder[..|ladder| - 1], ladder[|ladder| - 1];
      FittingDistinct(most, edge);
      forall r | r in Fitting(most, edge)
        ensures Jobs.HlsDir(r.name) != Jobs.HlsDir(last.name)
      {
        var k :| 0 <= k < |most| && most[k] == r;
        assert ladder[k] == r;
      }
    }
  }

  lemma LadderDistinct()
    ensures Distinct(DefaultLadder()) && PlainDirectories(DefaultLadder())
  {
    RungDirectories();
    DirectoriesPlain();
  }

  lemma DirectoriesPlain()
    ensures PlainDirectories(DefaultLadder())
  {
  }

  lemma RungDirectories()
    ensures var rungs := DefaultLadder();
      forall i :: 0 <= i < |rungs| ==>
        Jobs.HlsDir(rungs[i].name) != "" && Jobs.HlsDir(rungs[i].name)[0] == (if i == 0 then '1' else if i == 1 then '7' else if i == 2 then '4' else '3')
  {
  }

  lemma {:induction false} SmallFitsNone(ladder: seq<Rendition>, edge: int)
    requires forall i :: 0 <= i < |ladder| ==> ladder[i].shortEdge > edge
    ensures Fitting(ladder, edge) == []
  {
    if ladder != [] {
      SmallFitsNone(ladder[..|ladder| - 1], edge);
    }
  }

  /** With the ladder in use, each of its rungs is planned if and only if the source's short edge reaches it, and
      the stand-in if and only if it reaches none. */
  lemma RungsByEdge(src: Source)
    ensures var edge, plan := ShortEdge(src), Plan(src, DefaultLadder());
      && (Rendition("1080p", 1080, "5000k") in plan <==> edge >= 1080)
      && (Rendition("720p", 720, "2800k") in plan <==> edge >= 720)
      && (Rendition("480p", 480, "1400k") in plan <==> edge >= 480)
      && (Rendition("360p", 360, "800k") in plan <==> edge >= 360)
      && (plan == [Rendition("source", edge, "1400k")] <==> edge < 360)
  {
    var edge, ladder := ShortEdge(src), DefaultLadder();
    FittingAre(ladder, edge);
    RungsAre();
    if edge < 360 {
      SmallFitsNone(ladder, edge);
    } else {
      assert Rendition("360p", 360, "800k") in Fitting(ladder, edge);
    }
  }

  lemma {:induction false} FittingAre(ladder: seq<Rendition>, edge: int)
    ensures forall r :: r in Fitting(ladder, edge) <==> r in ladder && r.shortEdge <= edge
  {
    if ladder != [] {
      var most, last := ladder[..|ladder| - 1], ladder[|ladder| - 1];
      FittingAre(most, edge);
      assert forall r :: r in ladder <==> r in most || r == last;
    }
  }

  lemma RungsAre()
    ensures forall r :: r in DefaultLadder() <==>
      (r == Rendition("1080p", 1080, "5000k") || r == Rendition("720p", 720, "2800k")
       || r == Rendition("480p", 480, "1400k") || r == Rendition("360p", 360, "800k"))
  {
  }

  /** With the ladder in use, every rendition of every source has a directory of its own, with a name that
      the master playlist can carry. */
  lemma DirectoriesDistinct(src: Source)
    ensures Distinct(Plan(src, DefaultLadder())) && PlainDirectories(Plan(src, DefaultLadder()))
    ensures ShortEdge(src) < 360 ==>
      |Plan(src, DefaultLadder())| == 1 && Jobs.HlsDir(Plan(src, DefaultLadder())[0].name) == "native"
  {
    LadderDistinct();
    FittingDistinct(DefaultLadder(), ShortEdge(src));
    if ShortEdge(src) < 360 {
      SmallFitsNone(DefaultLadder(), ShortEdge(src));
    }
  }
}

/** Time-weighted evidence (assess_mps_efficiency.py): a sampled value held until the next
    observation, and task intervals, integrated over windows. Times and values are exact. */
module TimeIntegral {
  import opened Basics

  function Least(a: real, b: real): real {
    if b < a then b else a
  }

  function Most(a: real, b: real): real {
    if b > a then b else a
  }

  // ---- Observations -------------------------------------------------------------------------

  datatype Point = Point(at: real, value: real)

  // A sample, which may lack the key.
  datatype Sample = Sample(timestamp: real, value: Option<real>)

  ghost predicate Increasing(points: seq<Point>) {
    forall i, j :: 0 <= i < j < |points| ==> points[i].at < points[j].at
  }

  // A point in its place; a later row replaces an earlier one of the same time.
  function Put(points: seq<Point>, point: Point): seq<Point> {
    if points == [] then [point]
    else if point.at < points[0].at then [point] + points
    else if point.at == points[0].at then [point] + points[1..]
    else [points[0]] + Put(points[1..], point)
  }

  // The dict of rows that hold the key, by time, sorted.
  function Ordered(samples: seq<Sample>): seq<Point> {
    if samples == [] then []
    else
      var last, front := samples[|samples| - 1], Ordered(samples[..|samples| - 1]);
      if last.value.Some? then Put(front, Point(last.timestamp, last.value.value)) else front
  }

  // The points of another one's time go, and no others.
  lemma {:induction false} PutHas(points: seq<Point>, point: Point)
    requires Increasing(points)
    ensures forall p :: p in Put(points, point) <==> p == point || (p in points && p.at != point.at)
  {
    if points != [] {
      IncreasingRest(points);
      hide Increasing;
      assert points == [points[0]] + points[1..];
      if point.at > points[0].at { PutHas(points[1..], point); }
    }
  }

  lemma {:induction false} IncreasingRest(points: seq<Point>)
    requires Increasing(points) && points != []
    ensures Increasing(points[1..]) && forall p :: p in points[1..] ==> points[0].at < p.at
  {
  }

  lemma {:induction false} IncreasingFront(first: Point, rest: seq<Point>)
    requires Increasing(rest) && forall p :: p in rest ==> first.at < p.at
    ensures Increasing([first] + rest)
  {
  }

  lemma {:induction false} PutSorted(points: seq<Point>, point: Point)
    requires Increasing(points)
    ensures Increasing(Put(points, point))
    ensures forall p :: p in Put(points, point) <==> p == point || (p in points && p.at != point.at)
  {
    PutHas(points, point);
    if points == [] {
      IncreasingFront(point, []);
      assert [point] + [] == [point];
    } else {
      IncreasingRest(points);
      hide Increasing;
      assert points == [points[0]] + points[1..];
      if point.at > points[0].at {
        PutSorted(points[1..], point);
        IncreasingFront(points[0], Put(points[1..], point));
      } else {
        IncreasingFront(point, if point.at == points[0].at then points[1..] else points);
      }
    }
  }

  // The last sample with a value at this time.
  ghost predicate IsLast(samples: seq<Sample>, point: Point, i: int) {
    && 0 <= i < |samples| && samples[i] == Sample(point.at, Some(point.value))
    && forall j :: i < j < |samples| && samples[j].timestamp == point.at ==> samples[j].value.None?
  }

  /** The points are sorted by time, and hold of every time the last value sampled then. */
  lemma {:induction false} OrderedLast(samples: seq<Sample>)
    ensures Increasing(Ordered(samples))
    ensures forall p :: p in Ordered(samples) <==> exists i :: IsLast(samples, p, i)
    decreases |samples|
  {
    if samples != [] {
      var front, last := samples[..|samples| - 1], samples[|samples| - 1];
      OrderedLast(front);
      if last.value.Some? { PutSorted(Ordered(front), Point(last.timestamp, last.value.value)); }
      forall p ensures p in Ordered(samples) <==> exists i :: IsLast(samples, p, i) {
        LastOfMore(samples, p);
      }
    }
  }

  lemma {:induction false} LastOfMore(samples: seq<Sample>, point: Point)
    requires samples != []
    ensures var front, last := samples[..|samples| - 1], samples[|samples| - 1];
            (exists i :: IsLast(samples, point, i)) <==>
            if last.value.Some? && last.timestamp == point.at then last.value.value == point.value
            else exists i :: IsLast(front, point, i)
  {
    var front, last := samples[..|samples| - 1], samples[|samples| - 1];
    if last == Sample(point.at, Some(point.value)) {
      assert IsLast(samples, point, |samples| - 1);
    } else if last.value.None? || last.timestamp != point.at {
      forall i | IsLast(front, point, i) ensures IsLast(samples, point, i) {
        assert forall j :: i < j < |front| ==> samples[j] == front[j];
      }
      forall i | IsLast(samples, point, i) ensures IsLast(front, point, i) {
        assert forall j :: i < j < |front| ==> samples[j] == front[j];
      }
    } else {
      forall i ensures !IsLast(samples, point, i) {
      }
    }
  }

  // ---- Weighed pieces -----------------------------------------------------------------------

  // A value, and for how long it is held.
  datatype Piece = Piece(value: real, length: real)

  function Weighed(pieces: seq<Piece>): real {
    if pieces == [] then 0.0 else pieces[0].value * pieces[0].length + Weighed(pieces[1..])
  }

  function Total(pieces: seq<Piece>): real {
    if pieces == [] then 0.0 else pieces[0].length + Total(pieces[1..])
  }

  function Longest(pieces: seq<Piece>): real {
    if pieces == [] then 0.0 else Most(pieces[0].length, Longest(pieces[1..]))
  }

  ghost predicate Lengths(pieces: seq<Piece>) {
    forall i :: 0 <= i < |pieces| ==> pieces[i].length >= 0.0
  }

  // The same values, each held for as long as in a and in b together.
  ghost predicate Joined(a: seq<Piece>, b: seq<Piece>, both: seq<Piece>) {
    && |a| == |b| == |both|
    && forall i :: 0 <= i < |both| ==>
         a[i].value == b[i].value == both[i].value && a[i].length + b[i].length == both[i].length
  }

  lemma {:induction false} Distribute(k: real, a: real, b: real, sum: real)
    requires a + b == sum
    ensures k * a + k * b == k * sum
  {
  }

  lemma {:induction false} WeighedJoined(a: seq<Piece>, b: seq<Piece>, both: seq<Piece>)
    requires Joined(a, b, both)
    ensures Weighed(a) + Weighed(b) == Weighed(both)
  {
    if both != [] {
      WeighedJoined(a[1..], b[1..], both[1..]);
      Distribute(both[0].value, a[0].length, b[0].length, both[0].length);
    }
  }

  lemma {:induction false} TotalJoined(a: seq<Piece>, b: seq<Piece>, both: seq<Piece>)
    requires Joined(a, b, both)
    ensures Total(a) + Total(b) == Total(both)
  {
    if both != [] { TotalJoined(a[1..], b[1..], both[1..]); }
  }

  // Only the k-th piece is held at all.
  ghost predicate Only(pieces: seq<Piece>, k: int) {
    forall i :: 0 <= i < |pieces| && i != k ==> pieces[i].length == 0.0
  }

  lemma {:induction false} Nothing(k: real)
    ensures k * 0.0 == 0.0
  {
  }

  lemma {:induction false} OnlyWeighed(pieces: seq<Piece>, k: int)
    requires Only(pieces, k)
    ensures Total(pieces) == if 0 <= k < |pieces| then pieces[k].length else 0.0
    ensures Weighed(pieces) == if 0 <= k < |pieces| then pieces[k].value * pieces[k].length else 0.0
  {
    if pieces != [] {
      OnlyWeighed(pieces[1..], k - 1);
      Nothing(pieces[0].value);
    }
  }

  ghost predicate ValuesWithin(pieces: seq<Piece>, lo: real, hi: real) {
    forall i :: 0 <= i < |pieces| && pieces[i].length > 0.0 ==> lo <= pieces[i].value <= hi
  }

  lemma {:induction false} Scaled(a: real, b: real, length: real)
    requires length >= 0.0 && (length > 0.0 ==> a <= b)
    ensures a * length <= b * length
  {
    Nothing(a);
    Nothing(b);
  }

  lemma {:induction false} OneMoreAtLeast(lo: real, value: real, length: real, total: real, weighed: real)
    requires length >= 0.0 && (length > 0.0 ==> lo <= value) && lo * total <= weighed
    ensures lo * (length + total) <= value * length + weighed
  {
    Scaled(lo, value, length);
    Distribute(lo, length, total, length + total);
  }

  lemma {:induction false} OneMoreAtMost(hi: real, value: real, length: real, total: real, weighed: real)
    requires length >= 0.0 && (length > 0.0 ==> value <= hi) && weighed <= hi * total
    ensures value * length + weighed <= hi * (length + total)
  {
    Scaled(value, hi, length);
    Distribute(hi, length, total, length + total);
  }

  lemma {:induction false} AtLeast(pieces: seq<Piece>, lo: real, hi: real)
    requires Lengths(pieces) && ValuesWithin(pieces, lo, hi)
    ensures lo * Total(pieces) <= Weighed(pieces)
  {
    if pieces == [] {
      Nothing(lo);
    } else {
      AtLeast(pieces[1..], lo, hi);
      OneMoreAtLeast(lo, pieces[0].value, pieces[0].length, Total(pieces[1..]), Weighed(pieces[1..]));
    }
  }

  lemma {:induction false} AtMost(pieces: seq<Piece>, lo: real, hi: real)
    requires Lengths(pieces) && ValuesWithin(pieces, lo, hi)
    ensures Weighed(pieces) <= hi * Total(pieces)
  {
    if pieces == [] {
      Nothing(hi);
    } else {
      AtMost(pieces[1..], lo, hi);
      OneMoreAtMost(hi, pieces[0].value, pieces[0].length, Total(pieces[1..]), Weighed(pieces[1..]));
    }
  }

  /** The longest is one of the lengths and none is longer. */
  lemma {:induction false} LongestIs(pieces: seq<Piece>)
    requires Lengths(pieces)
    ensures 0.0 <= Longest(pieces) <= Total(pieces)
    ensures forall i :: 0 <= i < |pieces| ==> pieces[i].length <= Longest(pieces)
    ensures pieces != [] ==> exists i :: 0 <= i < |pieces| && pieces[i].length == Longest(pieces)
  {
    if pieces != [] {
      LongestIs(pieces[1..]);
      assert pieces == [pieces[0]] + pieces[1..];
      if Longest(pieces) == pieces[0].length {
      } else {
        var i :| 0 <= i < |pieces[1..]| && pieces[1..][i].length == Longest(pieces[1..]);
        assert pieces[i + 1].length == Longest(pieces);
      }
    }
  }

  // ---- The held integral --------------------------------------------------------------------

  // The part of the window during which the i-th point is held.
  function Span(points: seq<Point>, i: nat, start: real, end: real): real
    requires i < |points|
  {
    var following := if i + 1 < |points| then points[i + 1].at else end;
    Most(0.0, Least(end, following) - Most(start, points[i].at))
  }

  function Pieces(points: seq<Point>, start: real, end: real): (pieces: seq<Piece>)
    ensures |pieces| == |points| && Lengths(pieces)
  {
    if points == [] then []
    else [Piece(points[0].value, Span(points, 0, start, end))] + Pieces(points[1..], start, end)
  }

  lemma {:induction false} PieceAt(points: seq<Point>, i: nat, start: real, end: real)
    requires i < |points|
    ensures Pieces(points, start, end)[i] == Piece(points[i].value, Span(points, i, start, end))
  {
    if i > 0 {
      PieceAt(points[1..], i - 1, start, end);
      assert Pieces(points, start, end)[i] == Pieces(points[1..], start, end)[i - 1];
    }
  }

  // The last point not after a time; -1 when there is none.
  function HeldIndex(points: seq<Point>, time: real): (i: int)
    ensures -1 <= i < |points|
    ensures Increasing(points) ==> forall j :: 0 <= j < |points| ==> (points[j].at <= time <==> j <= i)
  {
    if points == [] || points[0].at > time then -1 else 1 + HeldIndex(points[1..], time)
  }

  /** Area and coverage add up over any cut of the window. */
  lemma {:induction false} AddsUp(points: seq<Point>, start: real, cut: real, end: real)
    requires Increasing(points) && start <= cut <= end
    ensures Weighed(Pieces(points, start, cut)) + Weighed(Pieces(points, cut, end)) ==
            Weighed(Pieces(points, start, end))
    ensures Total(Pieces(points, start, cut)) + Total(Pieces(points, cut, end)) == Total(Pieces(points, start, end))
  {
    PiecesJoined(points, start, cut, end);
    WeighedJoined(Pieces(points, start, cut), Pieces(points, cut, end), Pieces(points, start, end));
    TotalJoined(Pieces(points, start, cut), Pieces(points, cut, end), Pieces(points, start, end));
  }

  lemma {:induction false} PiecesJoined(points: seq<Point>, start: real, cut: real, end: real)
    requires Increasing(points) && start <= cut <= end
    ensures Joined(Pieces(points, start, cut), Pieces(points, cut, end), Pieces(points, start, end))
  {
    var a, b, both := Pieces(points, start, cut), Pieces(points, cut, end), Pieces(points, start, end);
    forall i | 0 <= i < |points|
      ensures a[i].value == b[i].value == both[i].value && a[i].length + b[i].length == both[i].length
    {
      PieceAt(points, i, start, cut);
      PieceAt(points, i, cut, end);
      PieceAt(points, i, start, end);
      assert i + 1 < |points| ==> points[i].at < points[i + 1].at;
    }
  }

  // No point lies strictly inside the window.
  ghost predicate Constant(points: seq<Point>, start: real, end: real) {
    forall i :: 0 <= i < |points| ==> points[i].at <= start || points[i].at >= end
  }

  // In such a window the point held at its start is held throughout, and no other at all.
  lemma {:induction false} OnlyHeld(points: seq<Point>, start: real, end: real)
    requires Increasing(points) && start < end && Constant(points, start, end)
    ensures var k, pieces := HeldIndex(points, start), Pieces(points, start, end);
            Only(pieces, k) && (k >= 0 ==> pieces[k] == Piece(points[k].value, end - start))
  {
    var k, pieces := HeldIndex(points, start), Pieces(points, start, end);
    forall i | 0 <= i < |points| ensures pieces[i].length == if i == k then end - start else 0.0 {
      PieceAt(points, i, start, end);
      assert i < k ==> points[i + 1].at <= start;
    }
    if k >= 0 { PieceAt(points, k, start, end); }
  }

  lemma {:induction false} PieceArea(piece: Piece, value: real, length: real)
    requires piece == Piece(value, length)
    ensures piece.value * piece.length == value * length
  {
  }

  /** Over a window in which no observation falls, the area is the held value times its
      length, and before the first observation nothing. With `AddsUp` this makes the area the
      integral of the held value over every window. */
  lemma {:induction false} ConstantWindow(points: seq<Point>, start: real, end: real)
    requires Increasing(points) && start < end && Constant(points, start, end)
    ensures var k, pieces := HeldIndex(points, start), Pieces(points, start, end);
            && Weighed(pieces) == (if k >= 0 then points[k].value * (end - start) else 0.0)
            && Total(pieces) == (if k >= 0 then end - start else 0.0)
  {
    OnlyHeld(points, start, end);
    hide Increasing, Constant, HeldIndex, Pieces, Weighed, Total, Only;
    var k, pieces := HeldIndex(points, start), Pieces(points, start, end);
    OnlyWeighed(pieces, k);
    if k >= 0 { PieceArea(pieces[k], points[k].value, end - start); }
  }

  /** What is covered is the window from the first observation on, if that comes in time. */
  lemma {:induction false} CoveredExactly(points: seq<Point>, start: real, end: real)
    requires Increasing(points) && start <= end
    ensures Total(Pieces(points, start, end)) ==
            if points == [] then 0.0 else Most(0.0, end - Most(start, points[0].at))
  {
    if points != [] {
      assert Pieces(points, start, end)[1..] == Pieces(points[1..], start, end);
      CoveredExactly(points[1..], start, end);
      assert |points| > 1 ==> points[0].at < points[1].at;
    }
  }

  datatype Held = Held(mean: Option<real>, coverage: real, longest: real)

  function HeldOver(points: seq<Point>, start: real, end: real): Held
    requires start < end
  {
    var pieces := Pieces(points, start, end);
    Quotients(Weighed(pieces), Total(pieces), end - start, Longest(pieces))
  }

  function Quotients(area: real, covered: real, length: real, longest: real): Held
    requires length > 0.0
  {
    Held(if covered != 0.0 then Some(area / covered) else None, covered / length, longest)
  }

  // The sums over the pieces before the i-th, and those still to come.
  ghost predicate SoFar(pieces: seq<Piece>, i: nat, area: real, covered: real, longest: real)
    requires i <= |pieces|
  {
    && area + Weighed(pieces[i..]) == Weighed(pieces)
    && covered + Total(pieces[i..]) == Total(pieces)
    && Most(longest, Longest(pieces[i..])) == Longest(pieces) && longest >= 0.0
  }

  lemma {:induction false} SoFarNext(pieces: seq<Piece>, i: nat, area: real, covered: real, longest: real,
                                     value: real, span: real)
    requires i < |pieces| && pieces[i] == Piece(value, span) && SoFar(pieces, i, area, covered, longest)
    ensures SoFar(pieces, i + 1, area + value * span, covered + span, Most(longest, span))
    ensures span == 0.0 ==> SoFar(pieces, i + 1, area, covered, longest)
  {
    assert pieces[i..][1..] == pieces[i + 1..];
    Nothing(value);
  }

  lemma {:induction false} SoFarNone(pieces: seq<Piece>)
    requires Lengths(pieces)
    ensures SoFar(pieces, 0, 0.0, 0.0, 0.0)
  {
    LongestIs(pieces);
    assert pieces[0..] == pieces;
  }

  lemma {:induction false} SoFarAll(pieces: seq<Piece>, area: real, covered: real, longest: real)
    requires SoFar(pieces, |pieces|, area, covered, longest)
    ensures area == Weighed(pieces) && covered == Total(pieces) && longest == Longest(pieces)
  {
  }

  // For how long the i-th point is held in the window; 0 when it is not.
  method HeldFor(points: seq<Point>, i: nat, start: real, end: real, ghost pieces: seq<Piece>) returns (span: real)
    requires i < |points| && pieces == Pieces(points, start, end)
    ensures pieces[i] == Piece(points[i].value, span) && span >= 0.0
  {
    PieceAt(points, i, start, end);
    var following := if i + 1 < |points| then points[i + 1].at else end;
    var left, right := Most(start, points[i].at), Least(end, following);
    span := if right > left then right - left else 0.0;
  }

  // One more point's part of the sums.
  method Add(ghost pieces: seq<Piece>, ghost i: nat, area: real, covered: real, longest: real, value: real, span: real)
    returns (area': real, covered': real, longest': real)
    requires i < |pieces| && pieces[i] == Piece(value, span) && span >= 0.0
    requires SoFar(pieces, i, area, covered, longest)
    ensures SoFar(pieces, i + 1, area', covered', longest')
  {
    SoFarNext(pieces, i, area, covered, longest, value, span);
    area', covered', longest' := area, covered, longest;
    if span > 0.0 {
      area', covered', longest' := area + value * span, covered + span, Most(longest, span);
    }
  }

  // The loop of `held_samples`.
  method Sums(points: seq<Point>, start: real, end: real) returns (area: real, covered: real, longest: real)
    ensures var pieces := Pieces(points, start, end);
            area == Weighed(pieces) && covered == Total(pieces) && longest == Longest(pieces)
  {
    ghost var pieces := Pieces(points, start, end);
    area, covered, longest := 0.0, 0.0, 0.0;
    SoFarNone(pieces);
    for i := 0 to |points|
      invariant SoFar(pieces, i, area, covered, longest)
    {
      var span := HeldFor(points, i, start, end, pieces);
      area, covered, longest := Add(pieces, i, area, covered, longest, points[i].value, span);
    }
    SoFarAll(pieces, area, covered, longest);
  }

  /** `held_samples`; None for a window without a positive length. */
  method HeldSamples(samples: seq<Sample>, start: real, end: real) returns (held: Option<Held>)
    ensures held.None? <==> end <= start
    ensures held.Some? ==> held.value == HeldOver(Ordered(samples), start, end)
  {
    if end <= start { return None; }
    var area, covered, longest := Sums(Ordered(samples), start, end);
    held := Some(Quotients(area, covered, end - start, longest));
  }

  /** The coverage is a share of the window, 1 exactly when an observation precedes it, and the
      mean is there exactly when an observation precedes its end. */
  lemma {:induction false} CoverageBounds(points: seq<Point>, start: real, end: real)
    requires Increasing(points) && start < end
    ensures var held := HeldOver(points, start, end);
            && 0.0 <= held.coverage <= 1.0 && (held.coverage == 1.0 <==> points != [] && points[0].at <= start)
            && (held.mean.Some? <==> points != [] && points[0].at < end)
  {
    CoveredExactly(points, start, end);
    Share(Total(Pieces(points, start, end)), end - start);
  }

  /** The mean lies between the least and the greatest observation held in the window. */
  lemma {:induction false} MeanBounds(points: seq<Point>, start: real, end: real, lo: real, hi: real)
    requires start < end && ValuesWithin(Pieces(points, start, end), lo, hi)
    ensures var held := HeldOver(points, start, end);
            held.mean.Some? ==> lo <= held.mean.value <= hi
  {
    hide Pieces, Weighed, Total, Longest, ValuesWithin, Quotients;
    var pieces := Pieces(points, start, end);
    AtLeast(pieces, lo, hi);
    AtMost(pieces, lo, hi);
    LongestIs(pieces);
    QuotientsMean(Weighed(pieces), Total(pieces), end - start, Longest(pieces), lo, hi);
  }

  lemma {:induction false} QuotientsMean(area: real, covered: real, length: real, longest: real, lo: real, hi: real)
    requires length > 0.0 && covered >= 0.0 && lo * covered <= area <= hi * covered
    ensures var mean := Quotients(area, covered, length, longest).mean;
            mean.Some? ==> lo <= mean.value <= hi
  {
    if covered != 0.0 { Between(lo, area, hi, covered); }
  }

  lemma {:induction false} Share(part: real, whole: real)
    requires 0.0 <= part <= whole && whole > 0.0
    ensures 0.0 <= part / whole <= 1.0 && (part / whole == 1.0 <==> part == whole)
  {
    Divided(part, whole);
    Cancel(0.0, part / whole, whole);
    assert 1.0 * whole == whole;
    Cancel(part / whole, 1.0, whole);
  }

  lemma {:induction false} Between(lo: real, area: real, hi: real, covered: real)
    requires covered > 0.0 && lo * covered <= area <= hi * covered
    ensures lo <= area / covered <= hi
  {
    Divided(area, covered);
    Cancel(lo, area / covered, covered);
    Cancel(area / covered, hi, covered);
  }

  lemma {:induction false} Divided(a: real, b: real)
    requires b > 0.0
    ensures a / b * b == a
  {
  }

  lemma {:induction false} Cancel(a: real, b: real, k: real)
    requires k > 0.0 && a * k <= b * k
    ensures a <= b
  {
  }

  // ---- Task intervals -------------------------------------------------------------------------

  datatype Task = Task(started: real, finished: real, completed: bool)

  function Overlap(tasks: seq<Task>, start: real, end: real): real {
    if tasks == [] then 0.0
    else
      Most(0.0, Least(tasks[0].finished, end) - Most(tasks[0].started, start)) + Overlap(tasks[1..], start, end)
  }

  // `interval_mean`
  function IntervalMean(tasks: seq<Task>, start: real, end: real): real
    requires start != end
  {
    Overlap(tasks, start, end) / (end - start)
  }

  lemma {:induction false} OverlapAddsUp(tasks: seq<Task>, start: real, cut: real, end: real)
    requires start <= cut <= end
    ensures Overlap(tasks, start, cut) + Overlap(tasks, cut, end) == Overlap(tasks, start, end)
  {
    if tasks != [] { OverlapAddsUp(tasks[1..], start, cut, end); }
  }

  // The tasks running at a time.
  function Running(tasks: seq<Task>, time: real): nat {
    if tasks == [] then 0
    else (if tasks[0].started <= time < tasks[0].finished then 1 else 0) + Running(tasks[1..], time)
  }

  // So many times a length.
  function Times(count: nat, length: real): real {
    if count == 0 then 0.0 else length + Times(count - 1, length)
  }

  lemma {:induction false} TimesIs(count: nat, length: real)
    ensures Times(count, length) == count as real * length
  {
    if count > 0 {
      TimesIs(count - 1, length);
      Distribute(length, (count - 1) as real, 1.0, count as real);
    }
  }

  lemma {:induction false} SteadyTimes(tasks: seq<Task>, start: real, end: real)
    requires start < end
    requires forall i :: 0 <= i < |tasks| ==> tasks[i].started <= start || tasks[i].started >= end
    requires forall i :: 0 <= i < |tasks| ==> tasks[i].finished <= start || tasks[i].finished >= end
    ensures Overlap(tasks, start, end) == Times(Running(tasks, start), end - start)
  {
    if tasks != [] { SteadyTimes(tasks[1..], start, end); }
  }

  /** Over a window in which no task starts or finishes, the overlap is the number of tasks
      running times its length: with `OverlapAddsUp`, the integral of that number. */
  lemma {:induction false} SteadyWindow(tasks: seq<Task>, start: real, end: real)
    requires start < end
    requires forall i :: 0 <= i < |tasks| ==> tasks[i].started <= start || tasks[i].started >= end
    requires forall i :: 0 <= i < |tasks| ==> tasks[i].finished <= start || tasks[i].finished >= end
    ensures Overlap(tasks, start, end) == Running(tasks, start) as real * (end - start)
  {
    SteadyTimes(tasks, start, end);
    TimesIs(Running(tasks, start), end - start);
  }

  // ---- Quarters -------------------------------------------------------------------------------

  function Edge(start: real, end: real, quarter: nat): real {
    start + (end - start) * quarter as real / 4.0
  }

  // Finished in a quarter; the last one is closed.
  predicate InQuarter(task: Task, start: real, end: real, quarter: nat) {
    && Edge(start, end, quarter) <= task.finished
    && (task.finished < Edge(start, end, quarter + 1) ||
        (quarter == 3 && task.finished <= Edge(start, end, quarter + 1)))
  }

  function Finished(tasks: seq<Task>, start: real, end: real, quarter: nat): nat {
    if tasks == [] then 0
    else (if InQuarter(tasks[0], start, end, quarter) then 1 else 0) + Finished(tasks[1..], start, end, quarter)
  }

  function FinishedWithin(tasks: seq<Task>, start: real, end: real): nat {
    if tasks == [] then 0
    else (if start <= tasks[0].finished <= end then 1 else 0) + FinishedWithin(tasks[1..], start, end)
  }

  lemma {:induction false} Edges(start: real, end: real)
    ensures Edge(start, end, 0) == start && Edge(start, end, 1) == start + (end - start) / 4.0
    ensures Edge(start, end, 2) == start + (end - start) / 2.0
    ensures Edge(start, end, 3) == end - (end - start) / 4.0 && Edge(start, end, 4) == end
  {
  }

  /** A task that finishes in the window finishes in exactly one quarter, any other in none. */
  lemma {:induction false} OneQuarter(task: Task, start: real, end: real)
    requires start < end
    ensures (if InQuarter(task, start, end, 0) then 1 else 0) + (if InQuarter(task, start, end, 1) then 1 else 0)
            + (if InQuarter(task, start, end, 2) then 1 else 0) + (if InQuarter(task, start, end, 3) then 1 else 0)
            == if start <= task.finished <= end then 1 else 0
  {
    Edges(start, end);
  }

  /** The quarters' tasks are those of the window, each counted once. */
  lemma {:induction false} QuartersCount(tasks: seq<Task>, start: real, end: real)
    requires start < end
    ensures Finished(tasks, start, end, 0) + Finished(tasks, start, end, 1) + Finished(tasks, start, end, 2)
            + Finished(tasks, start, end, 3) == FinishedWithin(tasks, start, end)
  {
    if tasks != [] {
      QuartersCount(tasks[1..], start, end);
      OneQuarter(tasks[0], start, end);
    }
  }

  function QuarterMean(tasks: seq<Task>, start: real, end: real, quarter: nat): real
    requires start < end && quarter < 4
  {
    Edges(start, end);
    IntervalMean(tasks, Edge(start, end, quarter), Edge(start, end, quarter + 1))
  }

  /** The four quarters' mean occupancies average to the whole window's. */
  lemma {:induction false} QuarterMeans(tasks: seq<Task>, start: real, end: real)
    requires start < end
    ensures (QuarterMean(tasks, start, end, 0) + QuarterMean(tasks, start, end, 1) + QuarterMean(tasks, start, end, 2)
             + QuarterMean(tasks, start, end, 3)) / 4.0 == IntervalMean(tasks, start, end)
  {
    Edges(start, end);
    hide Overlap, Edge;
    var e1, e2, e3 := Edge(start, end, 1), Edge(start, end, 2), Edge(start, end, 3);
    OverlapAddsUp(tasks, start, e1, e2);
    OverlapAddsUp(tasks, start, e2, e3);
    OverlapAddsUp(tasks, start, e3, end);
    FourParts(Overlap(tasks, start, e1), Overlap(tasks, e1, e2), Overlap(tasks, e2, e3), Overlap(tasks, e3, end),
              end - start);
  }

  lemma {:induction false} FourParts(a: real, b: real, c: real, d: real, length: real)
    requires length > 0.0
    ensures (a / (length / 4.0) + b / (length / 4.0) + c / (length / 4.0) + d / (length / 4.0)) / 4.0 ==
            (a + b + c + d) / length
  {
    FourTimes(a, length);
    FourTimes(b, length);
    FourTimes(c, length);
    FourTimes(d, length);
    assert (a + b + c + d) / length == a / length + b / length + c / length + d / length;
  }

  lemma {:induction false} FourTimes(a: real, length: real)
    requires length > 0.0
    ensures a / (length / 4.0) == 4.0 * (a / length)
  {
    Divided(a, length);
    Divided(a, length / 4.0);
  }

  datatype Quarter = Quarter(tasksPerSecond: real, completedPerSecond: real, occupancy: real, ready: Held)

  function OnlyCompleted(tasks: seq<Task>): seq<Task> {
    if tasks == [] then [] else (if tasks[0].completed then [tasks[0]] else []) + OnlyCompleted(tasks[1..])
  }

  // A number of tasks per second of a window in milliseconds.
  function Rate(count: nat, left: real, right: real): real
    requires left < right
  {
    count as real * 1000.0 / (right - left)
  }

  // The middle four fifths of the tasks, by position.
  function Middle(tasks: seq<Task>): seq<Task> {
    tasks[|tasks| / 10..|tasks| * 9 / 10]
  }

  // The quarters' rates of so many tasks average to the rate of all of them.
  lemma {:induction false} RatesAverage(a: nat, b: nat, c: nat, d: nat, start: real, end: real)
    requires start < end && AllLess(start, end)
    ensures (Rate(a, Edge(start, end, 0), Edge(start, end, 1))
             + Rate(b, Edge(start, end, 1), Edge(start, end, 2))
             + Rate(c, Edge(start, end, 2), Edge(start, end, 3))
             + Rate(d, Edge(start, end, 3), Edge(start, end, 4))) / 4.0 ==
            Rate(a + b + c + d, start, end)
  {
    Edges(start, end);
    hide Edge;
    Thousands(a, b, c, d);
    FourParts(a as real * 1000.0, b as real * 1000.0, c as real * 1000.0, d as real * 1000.0, end - start);
  }

  lemma {:induction false} Thousands(a: nat, b: nat, c: nat, d: nat)
    ensures a as real * 1000.0 + b as real * 1000.0 + c as real * 1000.0 + d as real * 1000.0 ==
            (a + b + c + d) as real * 1000.0
  {
  }

  predicate AllLess(start: real, end: real) {
    forall q :: 0 <= q < 4 ==> Edge(start, end, q) < Edge(start, end, q + 1)
  }

  lemma {:induction false} EdgesLess(start: real, end: real)
    requires start < end
    ensures AllLess(start, end)
  {
    Edges(start, end);
  }

  // Coverage of the quarters averages to that of the window.
  lemma {:induction false} CoverageAverages(points: seq<Point>, start: real, end: real)
    requires Increasing(points) && start < end && AllLess(start, end)
    ensures (HeldOver(points, Edge(start, end, 0), Edge(start, end, 1)).coverage
             + HeldOver(points, Edge(start, end, 1), Edge(start, end, 2)).coverage
             + HeldOver(points, Edge(start, end, 2), Edge(start, end, 3)).coverage
             + HeldOver(points, Edge(start, end, 3), Edge(start, end, 4)).coverage) / 4.0 ==
            HeldOver(points, start, end).coverage
  {
    Edges(start, end);
    hide Edge, Increasing, Pieces, Total, Weighed, Longest;
    var e1, e2, e3 := Edge(start, end, 1), Edge(start, end, 2), Edge(start, end, 3);
    AddsUp(points, start, e1, e2);
    AddsUp(points, start, e2, e3);
    AddsUp(points, start, e3, end);
    FourParts(Total(Pieces(points, start, e1)), Total(Pieces(points, e1, e2)), Total(Pieces(points, e2, e3)),
              Total(Pieces(points, e3, end)), end - start);
  }

  // Each quarter has the tasks and samples of its window.
  ghost predicate AllQuarters(quarters: seq<Quarter>, tasks: seq<Task>, samples: seq<Sample>, start: real, end: real) {
    |quarters| <= 4 &&
    forall q :: 0 <= q < |quarters| ==>
      QuarterIs(quarters[q], tasks, samples, Edge(start, end, q), Edge(start, end, q + 1),
                Finished(Middle(tasks), start, end, q), Finished(OnlyCompleted(Middle(tasks)), start, end, q))
  }

  // Together they tell what the whole window would.
  ghost predicate AverageOut(quarters: seq<Quarter>, tasks: seq<Task>, samples: seq<Sample>, start: real, end: real)
    requires |quarters| == 4 && start < end
  {
    && (quarters[0].tasksPerSecond + quarters[1].tasksPerSecond + quarters[2].tasksPerSecond
        + quarters[3].tasksPerSecond) / 4.0 == Rate(FinishedWithin(Middle(tasks), start, end), start, end)
    && (quarters[0].completedPerSecond + quarters[1].completedPerSecond + quarters[2].completedPerSecond
        + quarters[3].completedPerSecond) / 4.0 ==
         Rate(FinishedWithin(OnlyCompleted(Middle(tasks)), start, end), start, end)
    && (quarters[0].occupancy + quarters[1].occupancy + quarters[2].occupancy + quarters[3].occupancy) / 4.0 ==
         IntervalMean(tasks, start, end)
    && (quarters[0].ready.coverage + quarters[1].ready.coverage + quarters[2].ready.coverage
        + quarters[3].ready.coverage) / 4.0 == HeldOver(Ordered(samples), start, end).coverage
  }

  // The figures of the q-th quarter.
  lemma {:induction false} QuarterAt(quarters: seq<Quarter>, tasks: seq<Task>, samples: seq<Sample>, start: real,
                                     end: real, q: nat)
    requires q < |quarters| && AllQuarters(quarters, tasks, samples, start, end)
    ensures var left, right := Edge(start, end, q), Edge(start, end, q + 1);
            && left < right
            && quarters[q].tasksPerSecond == Rate(Finished(Middle(tasks), start, end, q), left, right)
            && quarters[q].completedPerSecond ==
                 Rate(Finished(OnlyCompleted(Middle(tasks)), start, end, q), left, right)
            && quarters[q].occupancy == IntervalMean(tasks, left, right)
            && quarters[q].ready == HeldOver(Ordered(samples), left, right)
  {
    hide Edge, Finished, Middle, OnlyCompleted, HeldOver, Rate, IntervalMean, Ordered;
  }

  lemma {:induction false} TasksAverage(tasks: seq<Task>, start: real, end: real)
    requires start < end && AllLess(start, end)
    ensures (Rate(Finished(tasks, start, end, 0), Edge(start, end, 0), Edge(start, end, 1))
             + Rate(Finished(tasks, start, end, 1), Edge(start, end, 1), Edge(start, end, 2))
             + Rate(Finished(tasks, start, end, 2), Edge(start, end, 2), Edge(start, end, 3))
             + Rate(Finished(tasks, start, end, 3), Edge(start, end, 3), Edge(start, end, 4))) / 4.0 ==
            Rate(FinishedWithin(tasks, start, end), start, end)
  {
    QuartersCount(tasks, start, end);
    hide Edge, Finished, FinishedWithin, Rate;
    RatesAverage(Finished(tasks, start, end, 0), Finished(tasks, start, end, 1), Finished(tasks, start, end, 2),
                 Finished(tasks, start, end, 3), start, end);
  }

  lemma {:induction false} QuartersAverage(quarters: seq<Quarter>, tasks: seq<Task>, samples: seq<Sample>, start: real,
                                           end: real)
    requires |quarters| == 4 && start < end && AllQuarters(quarters, tasks, samples, start, end)
    ensures AverageOut(quarters, tasks, samples, start, end)
  {
    hide Edge, Finished, FinishedWithin, Middle, OnlyCompleted, HeldOver, Rate, IntervalMean, Ordered, Increasing,
         AllQuarters, AllLess;
    EdgesLess(start, end);
    QuarterAt(quarters, tasks, samples, start, end, 0);
    QuarterAt(quarters, tasks, samples, start, end, 1);
    QuarterAt(quarters, tasks, samples, start, end, 2);
    QuarterAt(quarters, tasks, samples, start, end, 3);
    TasksAverage(Middle(tasks), start, end);
    TasksAverage(OnlyCompleted(Middle(tasks)), start, end);
    QuarterMeans(tasks, start, end);
    OrderedLast(samples);
    CoverageAverages(Ordered(samples), start, end);
  }

  /** The quarter windows of `assess`, over the task intervals and the samples of readiness:
      each finished task of the middle counts in one of them, and their rates, occupancies and
      coverages average to those of the whole window. */
  method Quarters(tasks: seq<Task>, samples: seq<Sample>, start: real, end: real)
    returns (quarters: seq<Quarter>)
    requires start < end
    ensures |quarters| == if tasks == [] then 0 else 4
    ensures AllQuarters(quarters, tasks, samples, start, end)
    ensures tasks != [] ==> AverageOut(quarters, tasks, samples, start, end)
  {
    quarters := [];
    if tasks == [] { return; }
    EdgesLess(start, end);
    hide Edge, Finished, Middle, OnlyCompleted, HeldOver, Rate, IntervalMean, Ordered, AverageOut;
    for q := 0 to 4
      invariant |quarters| == q && AllQuarters(quarters, tasks, samples, start, end)
    {
      var left, right := Edge(start, end, q), Edge(start, end, q + 1);
      var count := Finished(Middle(tasks), start, end, q);
      var completed := Finished(OnlyCompleted(Middle(tasks)), start, end, q);
      var held := HeldSamples(samples, left, right);
      var quarter := Quarter(Rate(count, left, right), Rate(completed, left, right), IntervalMean(tasks, left, right),
                             held.value);
      quarters := quarters + [quarter];
    }
    QuartersAverage(quarters, tasks, samples, start, end);
  }

  ghost predicate QuarterIs(quarter: Quarter, tasks: seq<Task>, samples: seq<Sample>, left: real, right: real,
                            count: nat, completed: nat)
  {
    && left < right && quarter.tasksPerSecond == Rate(count, left, right)
    && quarter.completedPerSecond == Rate(completed, left, right)
    && quarter.occupancy == IntervalMean(tasks, left, right)
    && quarter.ready == HeldOver(Ordered(samples), left, right)
  }
}

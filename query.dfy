/** The decision logic of `handle_api_query` in server/server.py: filter the
    joined sighting rows, split them at 100 m, pick the solver's initial guess
    and decide the response; plus the `mse` objective and the response shape. */
module Query {
  import opened Wrappers

  /** A (latitude, longitude) pair. */
  datatype Point = Point(lat: real, lng: real)

  /** One row of the locations/sightings join for the queried user. */
  datatype Row = Row(lat: real, lng: real, dist: int, acc: Option<real>)

  /** A sighting as the response lists it. */
  datatype Sighting = Sighting(lat: real, lng: real, dist: int)

  /** What `scipy.optimize.minimize` reports. */
  datatype SolverResult = SolverResult(success: bool, x: Point, message: string)

  /** The `guess` member of the response; `result` absent is the empty object. */
  datatype Guess = Guess(success: bool, reason: string, result: Option<Point>)

  datatype Response = Response(sightings: seq<Sighting>, guess: Guess)

  /** The ways the handler raises instead of answering. */
  datatype QueryError =
    | AccuracyMissing  // `acc > max_acc` with a NULL accuracy raises TypeError
    | NoInitialGuess   // `minimize` would be called with `initial_guess = None`

  const NearLimit: int := 100
  const DistanceStart: int := 1000000000  // the initial `distance_min = 1e9`
  const MinFarRows: int := 3
  const NoMatchReason: string := "No sightings matching given parameters."
  const TooFewReason: string := "Not enough sightings to estimate location, need at least three."

  function PointOf(r: Row): Point {
    Point(r.lat, r.lng)
  }

  /** The filter as a predicate: within the distance bound and with an accuracy within its bound. */
  ghost predicate Qualifies(r: Row, maxDist: int, maxAcc: real) {
    r.dist <= maxDist && r.acc.Some? && r.acc.value <= maxAcc
  }

  /** The two tests of the loop, the distance first: a row beyond the distance
      bound is skipped before its accuracy is looked at. */
  function Passes(r: Row, maxDist: int, maxAcc: real): (p: Result<bool, QueryError>)
    ensures p.Err? <==> r.dist <= maxDist && r.acc.None?
    ensures p.Ok? ==> (p.value <==> Qualifies(r, maxDist, maxAcc))
  {
    if r.dist > maxDist then Ok(false)
    else if r.acc.None? then Err(AccuracyMissing)
    else Ok(r.acc.value <= maxAcc)
  }

  /** The rows that reach `all_sightings`, in query order. */
  function Kept(rows: seq<Row>, maxDist: int, maxAcc: real): (r: Result<seq<Row>, QueryError>)
    ensures r.Ok? ==> |r.value| <= |rows|
    ensures r.Ok? ==> forall i :: 0 <= i < |r.value| ==> r.value[i] in rows && Qualifies(r.value[i], maxDist, maxAcc)
    decreases |rows|
  {
    if rows == [] then Ok([])
    else
      var init :- Kept(rows[..|rows| - 1], maxDist, maxAcc);
      var last := rows[|rows| - 1];
      var p :- Passes(last, maxDist, maxAcc);
      Ok(if p then init + [last] else init)
  }

  /** The rows of the near set (`dist <= 100`), in order. */
  function Near(rows: seq<Row>): (n: seq<Row>)
    ensures |n| <= |rows|
    ensures forall i :: 0 <= i < |n| ==> n[i] in rows && n[i].dist <= NearLimit
    decreases |rows|
  {
    if rows == [] then []
    else if rows[|rows| - 1].dist <= NearLimit then Near(rows[..|rows| - 1]) + [rows[|rows| - 1]]
    else Near(rows[..|rows| - 1])
  }

  /** The rows of the far set (`dist > 100`), in order. */
  function Far(rows: seq<Row>): (f: seq<Row>)
    ensures |f| <= |rows|
    ensures forall i :: 0 <= i < |f| ==> f[i] in rows && f[i].dist > NearLimit
    decreases |rows|
  {
    if rows == [] then []
    else if rows[|rows| - 1].dist > NearLimit then Far(rows[..|rows| - 1]) + [rows[|rows| - 1]]
    else Far(rows[..|rows| - 1])
  }

  function Points(rows: seq<Row>): (ps: seq<Point>)
    ensures |ps| == |rows| && forall i :: 0 <= i < |rows| ==> ps[i] == PointOf(rows[i])
  {
    seq(|rows|, i requires 0 <= i < |rows| => PointOf(rows[i]))
  }

  function Dists(rows: seq<Row>): (ds: seq<int>)
    ensures |ds| == |rows| && forall i :: 0 <= i < |rows| ==> ds[i] == rows[i].dist
  {
    seq(|rows|, i requires 0 <= i < |rows| => rows[i].dist)
  }

  function Sightings(rows: seq<Row>): (ss: seq<Sighting>)
    ensures |ss| == |rows| && forall i :: 0 <= i < |rows| ==> ss[i] == Sighting(rows[i].lat, rows[i].lng, rows[i].dist)
  {
    seq(|rows|, i requires 0 <= i < |rows| => Sighting(rows[i].lat, rows[i].lng, rows[i].dist))
  }

  /** `distance_min` and `initial_guess` after the loop has seen `kept`: a near
      row forces the minimum to 100; a far row strictly below the minimum becomes
      the guess. */
  function Track(kept: seq<Row>): (t: (int, Option<Point>))
    ensures t.0 <= DistanceStart
    ensures t.1.Some? ==> exists i :: 0 <= i < |kept| && kept[i].dist > NearLimit && t.1.value == PointOf(kept[i])
    decreases |kept|
  {
    if kept == [] then (DistanceStart, None)
    else
      var (m, g) := Track(kept[..|kept| - 1]);
      var r := kept[|kept| - 1];
      if r.dist <= NearLimit then (NearLimit, g)
      else if r.dist < m then (r.dist, Some(PointOf(r)))
      else (m, g)
  }

  /** The loop's variables once it has run. */
  datatype Scan = Scan(
    all: seq<Sighting>, locations: seq<Point>, distances: seq<int>,
    distanceMin: int, guess: Option<Point>, near: seq<Point>)

  /** What the loop computes from the rows: the kept rows as sightings, the far
      set's points and distances, the tracked minimum and guess, the near points. */
  function ScanOf(kept: seq<Row>): Scan {
    Scan(Sightings(kept), Points(Far(kept)), Dists(Far(kept)), Track(kept).0, Track(kept).1, Points(Near(kept)))
  }

  lemma SnocSeqs(rows: seq<Row>, r: Row)
    ensures Points(rows + [r]) == Points(rows) + [PointOf(r)]
    ensures Dists(rows + [r]) == Dists(rows) + [r.dist]
    ensures Sightings(rows + [r]) == Sightings(rows) + [Sighting(r.lat, r.lng, r.dist)]
    ensures Near(rows + [r]) == if r.dist <= NearLimit then Near(rows) + [r] else Near(rows)
    ensures Far(rows + [r]) == if r.dist > NearLimit then Far(rows) + [r] else Far(rows)
    ensures Track(rows + [r]) ==
      if r.dist <= NearLimit then (NearLimit, Track(rows).1)
      else if r.dist < Track(rows).0 then (r.dist, Some(PointOf(r)))
      else Track(rows)
  {
    assert (rows + [r])[..|rows|] == rows;
  }

  /** The first loop of `handle_api_query`: filters the rows and fills the lists. */
  method FilterRows(rows: seq<Row>, maxDist: int, maxAcc: real) returns (r: Result<Scan, QueryError>)
    ensures Kept(rows, maxDist, maxAcc).Err? ==> r == Err(AccuracyMissing)
    ensures Kept(rows, maxDist, maxAcc).Ok? ==> r == Ok(ScanOf(Kept(rows, maxDist, maxAcc).value))
  {
    var all: seq<Sighting> := [];
    var locations: seq<Point> := [];
    var distances: seq<int> := [];
    var distanceMin := DistanceStart;
    var initialGuess: Option<Point> := None;
    var locations100: seq<Point> := [];
    ghost var kept: seq<Row> := [];
    var i := 0;
    while i < |rows|
      invariant 0 <= i <= |rows|
      invariant Kept(rows[..i], maxDist, maxAcc) == Ok(kept)
      invariant Scan(all, locations, distances, distanceMin, initialGuess, locations100) == ScanOf(kept)
    {
      var row := rows[i];
      KeptStep(rows, i, maxDist, maxAcc, kept);
      i := i + 1;
      if row.dist > maxDist {
        continue;
      }
      if row.acc.None? {
        return Err(AccuracyMissing);
      }
      if row.acc.value > maxAcc {
        continue;
      }
      ScanStep(kept, row);
      kept := kept + [row];
      all := all + [Sighting(row.lat, row.lng, row.dist)];
      if row.dist <= NearLimit {
        locations100 := locations100 + [PointOf(row)];
        distanceMin := NearLimit;
        continue;
      }
      locations := locations + [PointOf(row)];
      distances := distances + [row.dist];
      if row.dist < distanceMin {
        initialGuess := Some(PointOf(row));
        distanceMin := row.dist;
      }
    }
    assert rows[..i] == rows;
    r := Ok(Scan(all, locations, distances, distanceMin, initialGuess, locations100));
  }

  /** How the loop's variables change when one more row is kept. */
  lemma ScanStep(kept: seq<Row>, r: Row)
    ensures var s := ScanOf(kept);
      ScanOf(kept + [r]) ==
        if r.dist <= NearLimit then
          s.(all := s.all + [Sighting(r.lat, r.lng, r.dist)], distanceMin := NearLimit, near := s.near + [PointOf(r)])
        else
          var s1 := s.(all := s.all + [Sighting(r.lat, r.lng, r.dist)],
                       locations := s.locations + [PointOf(r)], distances := s.distances + [r.dist]);
          if r.dist < s.distanceMin then s1.(distanceMin := r.dist, guess := Some(PointOf(r))) else s1
  {
    SnocSeqs(kept, r);
    if r.dist > NearLimit {
      SnocSeqs(Far(kept), r);
    } else {
      SnocSeqs(Near(kept), r);
    }
  }

  /** What one more row does to the filter: a row beyond either bound leaves it
      alone, a qualifying row is appended, a row whose accuracy is missing makes the
      whole filter raise. */
  lemma KeptStep(rows: seq<Row>, i: nat, maxDist: int, maxAcc: real, kept: seq<Row>)
    requires i < |rows| && Kept(rows[..i], maxDist, maxAcc) == Ok(kept)
    ensures rows[i].dist > maxDist || (rows[i].acc.Some? && rows[i].acc.value > maxAcc) ==>
      Kept(rows[..i + 1], maxDist, maxAcc) == Ok(kept)
    ensures Qualifies(rows[i], maxDist, maxAcc) ==> Kept(rows[..i + 1], maxDist, maxAcc) == Ok(kept + [rows[i]])
    ensures rows[i].dist <= maxDist && rows[i].acc.None? ==> Kept(rows, maxDist, maxAcc).Err?
  {
    assert rows[..i + 1][..i] == rows[..i];
    if rows[i].dist <= maxDist && rows[i].acc.None? {
      KeptErrSticks(rows, i + 1, maxDist, maxAcc);
    }
  }

  /** Once a row raises, the whole filter raises. */
  lemma {:induction false} KeptErrSticks(rows: seq<Row>, k: nat, maxDist: int, maxAcc: real)
    requires k <= |rows| && Kept(rows[..k], maxDist, maxAcc).Err?
    ensures Kept(rows, maxDist, maxAcc).Err?
    decreases |rows|
  {
    if k < |rows| {
      var init := rows[..|rows| - 1];
      assert init[..k] == rows[..k];
      KeptErrSticks(init, k, maxDist, maxAcc);
    } else {
      assert rows[..k] == rows;
    }
  }

  function SumLat(ps: seq<Point>): real
    decreases |ps|
  {
    if ps == [] then 0.0 else SumLat(ps[..|ps| - 1]) + ps[|ps| - 1].lat
  }

  function SumLng(ps: seq<Point>): real
    decreases |ps|
  {
    if ps == [] then 0.0 else SumLng(ps[..|ps| - 1]) + ps[|ps| - 1].lng
  }

  /** The arithmetic mean of the latitudes and of the longitudes. */
  function Mean(ps: seq<Point>): (m: Point)
    requires |ps| > 0
    ensures m.lat * |ps| as real == SumLat(ps) && m.lng * |ps| as real == SumLng(ps)
  {
    Point(SumLat(ps) / |ps| as real, SumLng(ps) / |ps| as real)
  }

  /** The centroid loop of `handle_api_query` over the near points: sums, then divides. */
  method Centroid(ps: seq<Point>) returns (c: Point)
    requires |ps| > 0
    ensures c == Mean(ps)
  {
    var lat, lng := 0.0, 0.0;
    for i := 0 to |ps|
      invariant lat == SumLat(ps[..i]) && lng == SumLng(ps[..i])
    {
      assert ps[..i + 1][..i] == ps[..i];
      lat := lat + ps[i].lat;
      lng := lng + ps[i].lng;
    }
    assert ps[..|ps|] == ps;
    lat := lat / |ps| as real;
    lng := lng / |ps| as real;
    c := Point(lat, lng);
  }

  /** The filter raises exactly when a row within the distance bound has no accuracy. */
  lemma {:induction false} KeptFailsIff(rows: seq<Row>, maxDist: int, maxAcc: real)
    ensures Kept(rows, maxDist, maxAcc).Err? <==>
      exists i :: 0 <= i < |rows| && rows[i].dist <= maxDist && rows[i].acc.None?
    decreases |rows|
  {
    if rows != [] {
      var init := rows[..|rows| - 1];
      KeptFailsIff(init, maxDist, maxAcc);
      if exists i :: 0 <= i < |init| && init[i].dist <= maxDist && init[i].acc.None? {
        var i :| 0 <= i < |init| && init[i].dist <= maxDist && init[i].acc.None?;
        assert rows[i] == init[i];
      }
      if exists i :: 0 <= i < |rows| && rows[i].dist <= maxDist && rows[i].acc.None? {
        var i :| 0 <= i < |rows| && rows[i].dist <= maxDist && rows[i].acc.None?;
        if i < |init| {
          assert init[i] == rows[i];
        }
      }
    }
  }

  /** A row is kept iff it is one of the query's rows and passes both bounds. */
  lemma {:induction false} KeptMembers(rows: seq<Row>, maxDist: int, maxAcc: real, x: Row)
    requires Kept(rows, maxDist, maxAcc).Ok?
    ensures x in Kept(rows, maxDist, maxAcc).value <==> x in rows && Qualifies(x, maxDist, maxAcc)
    decreases |rows|
  {
    if rows != [] {
      var init := rows[..|rows| - 1];
      assert rows == init + [rows[|rows| - 1]];
      KeptMembers(init, maxDist, maxAcc, x);
    }
  }

  /** Filtering keeps query order: the kept rows of a concatenation are the kept
      rows of each part, one after the other. */
  lemma {:induction false} KeptAppend(a: seq<Row>, b: seq<Row>, maxDist: int, maxAcc: real)
    requires Kept(a, maxDist, maxAcc).Ok? && Kept(b, maxDist, maxAcc).Ok?
    ensures Kept(a + b, maxDist, maxAcc) == Ok(Kept(a, maxDist, maxAcc).value + Kept(b, maxDist, maxAcc).value)
    decreases |b|
  {
    if b == [] {
      assert a + b == a;
      assert Kept(a, maxDist, maxAcc).value + [] == Kept(a, maxDist, maxAcc).value;
    } else {
      var b' := b[..|b| - 1];
      assert (a + b)[..|a + b| - 1] == a + b';
      assert (a + b)[|a + b| - 1] == b[|b| - 1];
      KeptAppend(a, b', maxDist, maxAcc);
      var ka, kb := Kept(a, maxDist, maxAcc).value, Kept(b', maxDist, maxAcc).value;
      var last := b[|b| - 1];
      assert (ka + kb) + [last] == ka + (kb + [last]);
    }
  }

  /** Every kept row lands in exactly one of the two sets, split at 100 m. */
  lemma {:induction false} PartitionExact(rows: seq<Row>)
    ensures multiset(Near(rows)) + multiset(Far(rows)) == multiset(rows)
    ensures |Near(rows)| + |Far(rows)| == |rows|
    ensures forall i :: 0 <= i < |Near(rows)| ==> Near(rows)[i].dist <= NearLimit
    ensures forall i :: 0 <= i < |Far(rows)| ==> Far(rows)[i].dist > NearLimit
    decreases |rows|
  {
    if rows != [] {
      var init := rows[..|rows| - 1];
      assert rows == init + [rows[|rows| - 1]];
      PartitionExact(init);
    }
  }

  /** Once a near row has been seen, `distance_min` ends at 100: far rows after it
      never beat 100. */
  lemma {:induction false} TrackWithNear(kept: seq<Row>)
    requires exists i :: 0 <= i < |kept| && kept[i].dist <= NearLimit
    ensures Track(kept).0 == NearLimit
    decreases |kept|
  {
    var init := kept[..|kept| - 1];
    if kept[|kept| - 1].dist > NearLimit {
      var i :| 0 <= i < |kept| && kept[i].dist <= NearLimit;
      assert init[i] == kept[i];
      TrackWithNear(init);
    }
  }

  /** With no near row, `distance_min` is the least far distance capped at 1e9,
      and `initial_guess` is the first row with that distance (ties keep the
      earlier row), or nothing if no distance is below 1e9. */
  lemma {:induction false} TrackWithoutNear(kept: seq<Row>)
    requires forall i :: 0 <= i < |kept| ==> kept[i].dist > NearLimit
    ensures Track(kept).0 <= DistanceStart
    ensures forall i :: 0 <= i < |kept| ==> Track(kept).0 <= kept[i].dist
    ensures Track(kept).1.None? <==> Track(kept).0 == DistanceStart
    ensures Track(kept).1.Some? ==>
      exists j :: 0 <= j < |kept| && Track(kept).1.value == PointOf(kept[j]) &&
        kept[j].dist == Track(kept).0 && forall i :: 0 <= i < j ==> kept[i].dist > kept[j].dist
    decreases |kept|
  {
    if kept != [] {
      var init := kept[..|kept| - 1];
      var r := kept[|kept| - 1];
      assert forall i :: 0 <= i < |init| ==> init[i] == kept[i];
      TrackWithoutNear(init);
      if r.dist < Track(init).0 {
        assert forall i :: 0 <= i < |kept| - 1 ==> kept[i].dist > r.dist;
      } else if Track(init).1.Some? {
        var j :| 0 <= j < |init| && Track(init).1.value == PointOf(init[j]) &&
          init[j].dist == Track(init).0 && forall i :: 0 <= i < j ==> init[i].dist > init[j].dist;
        assert kept[j] == init[j];
      }
    }
  }

  lemma {:induction false} SumLatBounds(ps: seq<Point>, lo: real, hi: real)
    requires forall i :: 0 <= i < |ps| ==> lo <= ps[i].lat <= hi
    ensures |ps| as real * lo <= SumLat(ps) <= |ps| as real * hi
    decreases |ps|
  {
    if ps != [] {
      var init := ps[..|ps| - 1];
      assert forall i :: 0 <= i < |init| ==> init[i] == ps[i];
      SumLatBounds(init, lo, hi);
      assert |ps| as real * lo == |init| as real * lo + lo;
      assert |ps| as real * hi == |init| as real * hi + hi;
    }
  }

  lemma {:induction false} SumLngBounds(ps: seq<Point>, lo: real, hi: real)
    requires forall i :: 0 <= i < |ps| ==> lo <= ps[i].lng <= hi
    ensures |ps| as real * lo <= SumLng(ps) <= |ps| as real * hi
    decreases |ps|
  {
    if ps != [] {
      var init := ps[..|ps| - 1];
      assert forall i :: 0 <= i < |init| ==> init[i] == ps[i];
      SumLngBounds(init, lo, hi);
      assert |ps| as real * lo == |init| as real * lo + lo;
      assert |ps| as real * hi == |init| as real * hi + hi;
    }
  }

  /** The centroid lies in every latitude/longitude box that holds all the near points. */
  lemma MeanWithinBounds(ps: seq<Point>, lo: Point, hi: Point)
    requires |ps| > 0
    requires forall i :: 0 <= i < |ps| ==> lo.lat <= ps[i].lat <= hi.lat && lo.lng <= ps[i].lng <= hi.lng
    ensures lo.lat <= Mean(ps).lat <= hi.lat
    ensures lo.lng <= Mean(ps).lng <= hi.lng
  {
    SumLatBounds(ps, lo.lat, hi.lat);
    SumLngBounds(ps, lo.lng, hi.lng);
    QuotientWithin(SumLat(ps), |ps| as real, lo.lat, hi.lat);
    QuotientWithin(SumLng(ps), |ps| as real, lo.lng, hi.lng);
  }

  /** Dividing a sum of `n` values, each between `lo` and `hi`, by `n`. */
  lemma QuotientWithin(sum: real, n: real, lo: real, hi: real)
    requires n > 0.0 && n * lo <= sum <= n * hi
    ensures lo <= sum / n <= hi
  {
  }

  /** Real multiplication, the `*` of the residual's square. */
  function Mul(a: real, b: real): real {
    a * b
  }

  /** Python's `e ** 2`. */
  function Square(e: real): real {
    Mul(e, e)
  }

  /** The squared residuals of the first `n` pairs of `zip(locations, distances)`. */
  function SumSquares(x: Point, locations: seq<Point>, distances: seq<int>, n: nat, geo: (Point, Point) -> real): (s: real)
    requires n <= |locations| && n <= |distances|
    ensures s >= 0.0
    decreases n
  {
    if n == 0 then 0.0
    else
      var e := geo(x, locations[n - 1]) - distances[n - 1] as real;
      assert Square(e) >= 0.0 by {
        if e != 0.0 {
          SquarePositive(e);
        }
      }
      SumSquares(x, locations, distances, n - 1, geo) + Square(e)
  }

  lemma ProductPositive(a: real, b: real)
    requires a > 0.0 && b > 0.0
    ensures Mul(a, b) > 0.0
  {
  }

  lemma ProductOfNegations(a: real, b: real)
    ensures Mul(-a, -b) == Mul(a, b)
  {
  }

  /** A non-zero residual has a positive square. */
  lemma SquarePositive(e: real)
    requires e != 0.0
    ensures Square(e) > 0.0
  {
    if e < 0.0 {
      ProductPositive(-e, -e);
      ProductOfNegations(e, e);
    } else {
      ProductPositive(e, e);
    }
  }

  /** The sum is zero exactly when every distance is matched exactly. */
  lemma {:induction false} SumSquaresZeroIff(x: Point, locations: seq<Point>, distances: seq<int>, n: nat, geo: (Point, Point) -> real)
    requires n <= |locations| && n <= |distances|
    ensures SumSquares(x, locations, distances, n, geo) == 0.0 <==>
      forall i :: 0 <= i < n ==> geo(x, locations[i]) == distances[i] as real
    decreases n
  {
    if n > 0 {
      SumSquaresZeroIff(x, locations, distances, n - 1, geo);
      var e := geo(x, locations[n - 1]) - distances[n - 1] as real;
      var prev := SumSquares(x, locations, distances, n - 1, geo);
      assert SumSquares(x, locations, distances, n, geo) == prev + Square(e);
      if e != 0.0 {
        SquarePositive(e);
        assert SumSquares(x, locations, distances, n, geo) > 0.0;
      } else {
        assert SumSquares(x, locations, distances, n, geo) == prev;
      }
    }
  }

  /** `mse`: the mean of the squared residuals; None where Python divides by zero. */
  method Mse(x: Point, locations: seq<Point>, distances: seq<int>, geo: (Point, Point) -> real) returns (r: Option<real>)
    ensures r.None? <==> |distances| == 0
    ensures r.Some? ==> r.value >= 0.0
    ensures r.Some? ==>
      r.value * |distances| as real == SumSquares(x, locations, distances, if |locations| < |distances| then |locations| else |distances|, geo)
  {
    var n := if |locations| < |distances| then |locations| else |distances|;
    var sum := 0.0;
    for i := 0 to n
      invariant sum == SumSquares(x, locations, distances, i, geo)
    {
      sum := sum + Square(geo(x, locations[i]) - distances[i] as real);
    }
    if |distances| == 0 {
      return None;
    }
    r := Some(sum / |distances| as real);
  }

  /** For equally long reference lists, the objective is zero exactly at a point
      whose distance to every reference matches the reported one. */
  lemma MseZeroIffExact(x: Point, locations: seq<Point>, distances: seq<int>, geo: (Point, Point) -> real)
    requires |locations| == |distances| > 0
    ensures SumSquares(x, locations, distances, |distances|, geo) / |distances| as real == 0.0 <==>
      forall i :: 0 <= i < |distances| ==> geo(x, locations[i]) == distances[i] as real
  {
    SumSquaresZeroIff(x, locations, distances, |distances|, geo);
  }

  /** `send_query_response`: a reason only on failure, a result only on success. */
  function QueryResponse(sightings: seq<Sighting>, success: bool, loc: Option<Point>, reason: string): (r: Response)
    requires success ==> loc.Some?
    ensures r.sightings == sightings && r.guess.success == success
    ensures r.guess.result.Some? <==> success
    ensures success ==> r.guess.reason == "" && r.guess.result == loc
    ensures !success ==> r.guess.reason == reason
  {
    Response(sightings, Guess(success, if success then "" else reason, if success then loc else None))
  }

  /** `handle_api_query` up to the call of the minimizer, which is `solver`. */
  method HandleQuery(rows: seq<Row>, maxDist: int, maxAcc: real, solver: (Point, seq<Point>, seq<int>) -> SolverResult)
    returns (r: Result<Response, QueryError>)
    ensures Kept(rows, maxDist, maxAcc).Err? ==> r == Err(AccuracyMissing)
    ensures Kept(rows, maxDist, maxAcc).Ok? && Kept(rows, maxDist, maxAcc).value == [] ==>
      r == Ok(Response([], Guess(false, NoMatchReason, None)))
    ensures Kept(rows, maxDist, maxAcc).Ok? && Kept(rows, maxDist, maxAcc).value != [] &&
            |Far(Kept(rows, maxDist, maxAcc).value)| < MinFarRows ==>
      r == Ok(Response(Sightings(Kept(rows, maxDist, maxAcc).value), Guess(false, TooFewReason, None)))
    ensures Kept(rows, maxDist, maxAcc).Ok? && |Far(Kept(rows, maxDist, maxAcc).value)| >= MinFarRows ==>
      var kept := Kept(rows, maxDist, maxAcc).value;
      var guess := if |Near(kept)| > 0 then Some(Mean(Points(Near(kept)))) else Track(kept).1;
      if guess.None? then r == Err(NoInitialGuess)
      else
        var s := solver(guess.value, Points(Far(kept)), Dists(Far(kept)));
        r == Ok(QueryResponse(Sightings(kept), s.success, Some(s.x), s.message))
  {
    var scan := FilterRows(rows, maxDist, maxAcc);
    if scan.Err? {
      return Err(scan.error);
    }
    ghost var kept := Kept(rows, maxDist, maxAcc).value;
    if |scan.value.all| == 0 {
      return Ok(QueryResponse([], false, None, NoMatchReason));
    }
    if |scan.value.locations| < MinFarRows {
      return Ok(QueryResponse(scan.value.all, false, None, TooFewReason));
    }
    var initialGuess := scan.value.guess;
    if |scan.value.near| > 0 {
      var c := Centroid(scan.value.near);
      initialGuess := Some(c);
    }
    if initialGuess.None? {
      return Err(NoInitialGuess);
    }
    var result := solver(initialGuess.value, scan.value.locations, scan.value.distances);
    r := Ok(QueryResponse(scan.value.all, result.success, Some(result.x), result.message));
  }
}

/**
 * Server-side statistics: the disease severity index, the per-tree health
 * time series, the regional count of diseased scans around a point, and the
 * geo-outbreak rule that compares the last week with the week before.
 *
 * Query results are inputs (the SQL is not modelled); so are the current time,
 * Python's float() on text, and the haversine distance between two points.
 */
module StatisticsModel {
  import opened Wrappers
  import opened PyValue
  import Ordered

  /** SEVERITY_INDEX */
  const SeverityIndex: map<string, nat> := map[
    "Healthy" := 0,
    "Sooty Mould" := 1,
    "Powdery Mildew" := 2,
    "Gall Midge" := 2,
    "Anthracnose" := 3,
    "Bacterial Canker" := 3,
    "Cutting Weevil" := 3,
    "die back" := 3
  ]

  /** SEVERITY_INDEX.get(disease, 0) */
  function Severity(disease: string): nat {
    if disease in SeverityIndex then SeverityIndex[disease] else 0
  }

  /** The eight classes the classifier was trained on, in training order. */
  const DiseaseClasses: seq<string> := [
    "Anthracnose", "Bacterial Canker", "Cutting Weevil", "die back",
    "Gall Midge", "Healthy", "Powdery Mildew", "Sooty Mould"
  ]

  /** 'Healthy' and unknown classes weigh 0; every trained disease weighs 1 to 3. */
  lemma SeverityScale(disease: string)
    ensures Severity(disease) <= 3
    ensures disease == "Healthy" || disease !in DiseaseClasses ==> Severity(disease) == 0
    ensures disease in DiseaseClasses && disease != "Healthy" ==> 1 <= Severity(disease)
  {
  }

  // ---------------------------------------------------------------- health scores

  /** One row of the tree history query: the upload time's isoformat() and the class. */
  datatype HealthRow = HealthRow(uploadIso: string, predictedClass: string)

  datatype HealthScore = HealthScore(date: string, score: nat, disease: string)

  /** get_tree_health_scores: one score per row, in row order; a failed query gives []. */
  method TreeHealthScores(results: Option<seq<HealthRow>>) returns (scores: seq<HealthScore>)
    ensures results.None? ==> scores == []
    ensures results.Some? ==> |scores| == |results.value|
    ensures results.Some? ==> forall i | 0 <= i < |scores| ::
      var row := results.value[i];
      scores[i].date == row.uploadIso && scores[i].disease == row.predictedClass
      && scores[i].score == Severity(row.predictedClass)
  {
    scores := [];
    if results.Some? {
      var rows := results.value;
      for i := 0 to |rows|
        invariant |scores| == i
        invariant forall j | 0 <= j < i ::
          scores[j] == HealthScore(rows[j].uploadIso, Severity(rows[j].predictedClass), rows[j].predictedClass)
      {
        var disease := rows[i].predictedClass;
        scores := scores + [HealthScore(rows[i].uploadIso, Severity(disease), disease)];
      }
    }
  }

  // ---------------------------------------------------------------- regional counts

  datatype Point = Point(lat: real, lon: real)

  /**
   * A scan row of the coordinate queries: the class, the upload time in
   * seconds, COALESCE(farm, scan) latitude and longitude as stored, and the
   * owner of the farm the scanned tree belongs to (NULL for quick scans).
   */
  datatype ScanRow = ScanRow(
    predictedClass: string, uploadDate: int,
    latitude: Value, longitude: Value, farmUserId: Option<int>)

  /** float(latitude) and float(longitude); None when either raises. */
  function Location(lat: Value, lon: Value, parseFloat: string -> Option<real>): (p: Option<Point>)
    ensures p.Some? <==> ToFloat(lat, parseFloat).Some? && ToFloat(lon, parseFloat).Some?
  {
    match (ToFloat(lat, parseFloat), ToFloat(lon, parseFloat))
    case (Some(a), Some(b)) => Some(Point(a, b))
    case _ => None
  }

  /** The row converts and lies within maxKm of the target (the bound is inclusive). */
  predicate Near(target: Point, row: ScanRow, maxKm: real,
                 parseFloat: string -> Option<real>, distance: (Point, Point) -> real)
  {
    match Location(row.latitude, row.longitude, parseFloat)
    case None => false
    case Some(p) => distance(target, p) <= maxKm
  }

  /** The classes of the rows that count for the region, in row order. */
  function NearClasses(target: Point, rows: seq<ScanRow>, maxKm: real,
                       parseFloat: string -> Option<real>, distance: (Point, Point) -> real): seq<string>
    decreases |rows|
  {
    if rows == [] then []
    else
      var last := rows[|rows| - 1];
      NearClasses(target, rows[..|rows| - 1], maxKm, parseFloat, distance)
      + (if Near(target, last, maxKm, parseFloat, distance) then [last.predictedClass] else [])
  }

  function CountOf(classes: seq<string>, d: string): nat
    decreases |classes|
  {
    if classes == [] then 0
    else CountOf(classes[..|classes| - 1], d) + (if classes[|classes| - 1] == d then 1 else 0)
  }

  /** counts[d] = counts.get(d, 0) + 1 */
  function Bump(counts: seq<(string, nat)>, d: string): seq<(string, nat)> {
    Ordered.Put(counts, d, Ordered.Get(counts, d).GetOr(0) + 1)
  }

  /** The dict the counting loop builds from the classes, keys in first-seen order. */
  function Tally(classes: seq<string>): seq<(string, nat)>
    decreases |classes|
  {
    if classes == [] then [] else Bump(Tally(classes[..|classes| - 1]), classes[|classes| - 1])
  }

  lemma TallySnoc(classes: seq<string>, c: string)
    ensures Tally(classes + [c]) == Bump(Tally(classes), c)
  {
    assert (classes + [c])[..|classes|] == classes;
  }

  function SumValues(d: seq<(string, nat)>): nat {
    if d == [] then 0 else d[0].1 + SumValues(d[1..])
  }

  lemma {:induction false} PutSum(d: seq<(string, nat)>, k: string, v: nat)
    ensures SumValues(Ordered.Put(d, k, v)) + Ordered.Get(d, k).GetOr(0) == SumValues(d) + v
    decreases |d|
  {
    if d == [] {
      assert Ordered.Put(d, k, v) == [(k, v)];
    } else if d[0].0 == k {
      Ordered.PutHead(d, k, v);
      assert ([(k, v)] + d[1..])[1..] == d[1..];
    } else {
      var rest := Ordered.Put(d[1..], k, v);
      PutSum(d[1..], k, v);
      Ordered.PutCons(d, k, v);
      assert ([d[0]] + rest)[1..] == rest;
    }
  }

  /** The tally holds exactly the classes that occur, each with its number of occurrences. */
  lemma {:induction false} TallyCounts(classes: seq<string>)
    ensures Ordered.UniqueKeys(Tally(classes))
    ensures forall d :: Ordered.Get(Tally(classes), d)
                     == (if CountOf(classes, d) > 0 then Some(CountOf(classes, d)) else None)
    ensures SumValues(Tally(classes)) == |classes|
    decreases |classes|
  {
    if classes != [] {
      var init := classes[..|classes| - 1];
      var c := classes[|classes| - 1];
      TallyCounts(init);
      var before := Tally(init);
      var n := Ordered.Get(before, c).GetOr(0);
      assert Tally(classes) == Ordered.Put(before, c, n + 1);
      PutSum(before, c, n + 1);
      forall d ensures Ordered.Get(Tally(classes), d)
                       == (if CountOf(classes, d) > 0 then Some(CountOf(classes, d)) else None)
      {
        assert CountOf(classes, d) == CountOf(init, d) + (if c == d then 1 else 0);
      }
    }
  }

  /** Every class in the tally was counted at least once. */
  lemma TallyPositive(classes: seq<string>)
    ensures forall i | 0 <= i < |Tally(classes)| :: Tally(classes)[i].1 >= 1
  {
    TallyCounts(classes);
    var t := Tally(classes);
    forall i | 0 <= i < |t| ensures t[i].1 >= 1 {
      assert Ordered.Get(t, t[i].0) == Some(t[i].1);
    }
  }

  /** The dict get_regional_disease_data builds, row by row. */
  function RegionalCounts(target: Point, rows: seq<ScanRow>, maxKm: real,
                          parseFloat: string -> Option<real>, distance: (Point, Point) -> real)
    : seq<(string, nat)>
    decreases |rows|
  {
    if rows == [] then []
    else
      var last := rows[|rows| - 1];
      var before := RegionalCounts(target, rows[..|rows| - 1], maxKm, parseFloat, distance);
      if Near(target, last, maxKm, parseFloat, distance) then Bump(before, last.predictedClass) else before
  }

  /**
   * The regional counts are the tally of the nearby classes: one entry per
   * class seen nearby, holding its number of nearby diseased scans, and the
   * entries add up to the number of nearby scans.
   */
  lemma {:induction false} RegionalCountsMeaning(target: Point, rows: seq<ScanRow>, maxKm: real,
                                                 parseFloat: string -> Option<real>, distance: (Point, Point) -> real)
    ensures var counts := RegionalCounts(target, rows, maxKm, parseFloat, distance);
      var near := NearClasses(target, rows, maxKm, parseFloat, distance);
      && counts == Tally(near)
      && Ordered.UniqueKeys(counts)
      && SumValues(counts) == |near|
      && forall d :: Ordered.Get(counts, d) == if CountOf(near, d) > 0 then Some(CountOf(near, d)) else None
    decreases |rows|
  {
    var near := NearClasses(target, rows, maxKm, parseFloat, distance);
    if rows != [] {
      var init := rows[..|rows| - 1];
      var last := rows[|rows| - 1];
      RegionalCountsMeaning(target, init, maxKm, parseFloat, distance);
      var prefix := NearClasses(target, init, maxKm, parseFloat, distance);
      if Near(target, last, maxKm, parseFloat, distance) {
        assert near == prefix + [last.predictedClass];
        TallySnoc(prefix, last.predictedClass);
      } else {
        assert near == prefix;
      }
    }
    TallyCounts(near);
  }

  /**
   * get_regional_disease_data: counts the diseased scans per class within
   * maxKm of the target, skipping rows whose coordinates do not convert.
   */
  method RegionalDiseaseData(target: Point, rows: seq<ScanRow>, maxKm: real,
                             parseFloat: string -> Option<real>, distance: (Point, Point) -> real)
    returns (counts: seq<(string, nat)>)
    ensures counts == RegionalCounts(target, rows, maxKm, parseFloat, distance)
  {
    counts := [];
    var i := 0;
    while i < |rows|
      invariant 0 <= i <= |rows|
      invariant counts == RegionalCounts(target, rows[..i], maxKm, parseFloat, distance)
    {
      assert rows[..i + 1][..i] == rows[..i];
      assert RegionalCounts(target, rows[..i + 1], maxKm, parseFloat, distance)
          == if Near(target, rows[i], maxKm, parseFloat, distance) then Bump(counts, rows[i].predictedClass) else counts;
      var loc := Location(rows[i].latitude, rows[i].longitude, parseFloat);
      if loc.Some? {
        if distance(target, loc.value) <= maxKm {
          var disease := rows[i].predictedClass;
          counts := Bump(counts, disease);
        }
      }
      i := i + 1;
    }
    assert rows[..i] == rows;
  }

  // ---------------------------------------------------------------- outbreak rule

  const SecondsPerDay: int := 86400

  /** A farm of the user as get_all_user_farms returns it. */
  datatype Farm = Farm(farmId: int, farmName: string, latitude: Value, longitude: Value)

  /** The filter `f.get('latitude') and f.get('longitude')`. */
  predicate GeoTagged(f: Farm) {
    Truthy(f.latitude) && Truthy(f.longitude)
  }

  datatype Buckets = Buckets(currentScans: nat, currentDiseased: nat,
                             baselineScans: nat, baselineDiseased: nat)

  /** A row from another user's farm (or a quick scan) that converts and lies within maxKm. */
  predicate Counted(userId: int, at: Point, row: ScanRow, maxKm: real,
                    parseFloat: string -> Option<real>, distance: (Point, Point) -> real)
  {
    row.farmUserId != Some(userId) && Near(at, row, maxKm, parseFloat, distance)
  }

  predicate Diseased(row: ScanRow) {
    Severity(row.predictedClass) > 0
  }

  function CountWhere(rows: seq<ScanRow>, p: ScanRow -> bool): (n: nat)
    ensures n <= |rows|
    decreases |rows|
  {
    if rows == [] then 0
    else CountWhere(rows[..|rows| - 1], p) + (if p(rows[|rows| - 1]) then 1 else 0)
  }

  /** The four counters, each defined as the number of rows that satisfy its condition. */
  function BucketsOf(userId: int, at: Point, rows: seq<ScanRow>, currentStart: int, maxKm: real,
                     parseFloat: string -> Option<real>, distance: (Point, Point) -> real): Buckets
  {
    var counted := (r: ScanRow) => Counted(userId, at, r, maxKm, parseFloat, distance);
    Buckets(
      CountWhere(rows, r => counted(r) && r.uploadDate >= currentStart),
      CountWhere(rows, r => counted(r) && r.uploadDate >= currentStart && Diseased(r)),
      CountWhere(rows, r => counted(r) && r.uploadDate < currentStart),
      CountWhere(rows, r => counted(r) && r.uploadDate < currentStart && Diseased(r)))
  }

  /** The counters after one more row: a counted row bumps its week's total, and its diseased count when diseased. */
  function AddRow(b: Buckets, counted: bool, current: bool, diseased: bool): Buckets {
    if !counted then b
    else if current then
      b.(currentScans := b.currentScans + 1,
         currentDiseased := b.currentDiseased + if diseased then 1 else 0)
    else
      b.(baselineScans := b.baselineScans + 1,
         baselineDiseased := b.baselineDiseased + if diseased then 1 else 0)
  }

  lemma BucketsOfSnoc(userId: int, at: Point, rows: seq<ScanRow>, row: ScanRow, currentStart: int, maxKm: real,
                      parseFloat: string -> Option<real>, distance: (Point, Point) -> real)
    ensures BucketsOf(userId, at, rows + [row], currentStart, maxKm, parseFloat, distance)
         == AddRow(BucketsOf(userId, at, rows, currentStart, maxKm, parseFloat, distance),
                   Counted(userId, at, row, maxKm, parseFloat, distance),
                   row.uploadDate >= currentStart, Diseased(row))
  {
    assert (rows + [row])[..|rows|] == rows;
  }

  /** The inner loop of check_geo_outbreak_risk for one target farm. */
  method NearbyBuckets(userId: int, at: Point, rows: seq<ScanRow>, currentStart: int, maxKm: real,
                       parseFloat: string -> Option<real>, distance: (Point, Point) -> real)
    returns (b: Buckets)
    ensures b == BucketsOf(userId, at, rows, currentStart, maxKm, parseFloat, distance)
  {
    var scansCurrent, diseasedCurrent, scansBaseline, diseasedBaseline := 0, 0, 0, 0;
    for i := 0 to |rows|
      invariant BucketsOf(userId, at, rows[..i], currentStart, maxKm, parseFloat, distance)
             == Buckets(scansCurrent, diseasedCurrent, scansBaseline, diseasedBaseline)
    {
      BucketsOfSnoc(userId, at, rows[..i], rows[i], currentStart, maxKm, parseFloat, distance);
      assert rows[..i] + [rows[i]] == rows[..i + 1];
      var scan := rows[i];
      if scan.farmUserId == Some(userId) {
        continue;
      }
      var loc := Location(scan.latitude, scan.longitude, parseFloat);
      if loc.None? {
        continue;
      }
      if distance(at, loc.value) <= maxKm {
        var isDiseased := Severity(scan.predictedClass) > 0;
        if scan.uploadDate >= currentStart {
          scansCurrent := scansCurrent + 1;
          if isDiseased {
            diseasedCurrent := diseasedCurrent + 1;
          }
        } else {
          scansBaseline := scansBaseline + 1;
          if isDiseased {
            diseasedBaseline := diseasedBaseline + 1;
          }
        }
      }
    }
    assert rows[..|rows|] == rows;
    b := Buckets(scansCurrent, diseasedCurrent, scansBaseline, diseasedBaseline);
  }

  lemma {:induction false} CountWhereMono(rows: seq<ScanRow>, p: ScanRow -> bool, q: ScanRow -> bool)
    requires forall r :: p(r) ==> q(r)
    ensures CountWhere(rows, p) <= CountWhere(rows, q)
    decreases |rows|
  {
    if rows != [] { CountWhereMono(rows[..|rows| - 1], p, q); }
  }

  lemma {:induction false} CountWhereSplit(rows: seq<ScanRow>, p: ScanRow -> bool, q: ScanRow -> bool,
                                           either: ScanRow -> bool)
    requires forall r :: either(r) <==> (p(r) || q(r))
    requires forall r :: !(p(r) && q(r))
    ensures CountWhere(rows, p) + CountWhere(rows, q) == CountWhere(rows, either)
    decreases |rows|
  {
    if rows != [] { CountWhereSplit(rows[..|rows| - 1], p, q, either); }
  }

  lemma {:induction false} CountWhereNone(rows: seq<ScanRow>, p: ScanRow -> bool)
    requires forall i | 0 <= i < |rows| :: !p(rows[i])
    ensures CountWhere(rows, p) == 0
    decreases |rows|
  {
    if rows != [] { CountWhereNone(rows[..|rows| - 1], p); }
  }

  /**
   * Diseased counts never exceed totals, every counted row lands in exactly one
   * bucket, and rows from the user's own farms land in neither.
   */
  lemma BucketsPartition(userId: int, at: Point, rows: seq<ScanRow>, currentStart: int, maxKm: real,
                         parseFloat: string -> Option<real>, distance: (Point, Point) -> real)
    ensures var b := BucketsOf(userId, at, rows, currentStart, maxKm, parseFloat, distance);
      && b.currentDiseased <= b.currentScans
      && b.baselineDiseased <= b.baselineScans
      && b.currentScans + b.baselineScans
         == CountWhere(rows, r => Counted(userId, at, r, maxKm, parseFloat, distance))
    ensures (forall i | 0 <= i < |rows| :: rows[i].farmUserId == Some(userId)) ==>
      BucketsOf(userId, at, rows, currentStart, maxKm, parseFloat, distance) == Buckets(0, 0, 0, 0)
  {
    var counted := (r: ScanRow) => Counted(userId, at, r, maxKm, parseFloat, distance);
    var cur := (r: ScanRow) => counted(r) && r.uploadDate >= currentStart;
    var base := (r: ScanRow) => counted(r) && r.uploadDate < currentStart;
    CountWhereMono(rows, r => cur(r) && Diseased(r), cur);
    CountWhereMono(rows, r => base(r) && Diseased(r), base);
    CountWhereSplit(rows, cur, base, counted);
    if forall i | 0 <= i < |rows| :: rows[i].farmUserId == Some(userId) {
      CountWhereNone(rows, cur);
      CountWhereNone(rows, base);
      CountWhereMono(rows, r => cur(r) && Diseased(r), cur);
      CountWhereMono(rows, r => base(r) && Diseased(r), base);
    }
  }

  /** diseased / scans, and 0 for an empty bucket. */
  function Prevalence(diseased: nat, scans: nat): real {
    if scans == 0 then 0.0 else diseased as real / scans as real
  }

  function RiskIncrease(current: real, baseline: real): real {
    if baseline > 0.0 && current >= 0.10 then (current - baseline) / baseline else 0.0
  }

  /** Current prevalence of at least 10% and a rise of at least 20% over the baseline. */
  predicate Alerts(b: Buckets) {
    var current := Prevalence(b.currentDiseased, b.currentScans);
    var baseline := Prevalence(b.baselineDiseased, b.baselineScans);
    current >= 0.10 && RiskIncrease(current, baseline) >= 0.20
  }

  /** The alert rule in whole numbers. */
  lemma AlertsExactly(b: Buckets)
    ensures Alerts(b) <==>
      && b.currentScans > 0 && b.baselineScans > 0 && b.baselineDiseased > 0
      && 10 * b.currentDiseased >= b.currentScans
      && 5 * b.currentDiseased * b.baselineScans >= 6 * b.baselineDiseased * b.currentScans
  {
    var cd, cs, bd, bs := b.currentDiseased as real, b.currentScans as real,
                          b.baselineDiseased as real, b.baselineScans as real;
    var current := Prevalence(b.currentDiseased, b.currentScans);
    var baseline := Prevalence(b.baselineDiseased, b.baselineScans);
    if b.currentScans > 0 && b.baselineScans > 0 && b.baselineDiseased > 0 {
      assert current == cd / cs && baseline == bd / bs;
      assert baseline > 0.0;
      assert current >= 0.10 <==> cd >= 0.10 * cs by {
        DivAtLeast(cd, cs, 0.10);
      }
      if current >= 0.10 {
        assert RiskIncrease(current, baseline) == (current - baseline) / baseline;
        RiseAtLeast(cd, cs, bd, bs);
      }
    } else if b.currentScans > 0 && b.baselineScans > 0 {
      assert baseline == 0.0;
    }
  }

  lemma DivAtLeast(x: real, y: real, t: real)
    requires y > 0.0
    ensures x / y >= t <==> x >= t * y
  {
    assert x / y * y == x;
    if x / y >= t {
      assert x / y * y >= t * y;
    } else {
      assert x / y * y < t * y;
    }
  }

  lemma RiseAtLeast(cd: real, cs: real, bd: real, bs: real)
    requires cs > 0.0 && bs > 0.0 && bd > 0.0
    ensures (cd / cs - bd / bs) / (bd / bs) >= 0.20 <==> 5.0 * cd * bs >= 6.0 * bd * cs
  {
    var c, b := cd / cs, bd / bs;
    assert b > 0.0;
    DivAtLeast(c - b, b, 0.20);
    assert (c - b) / b >= 0.20 <==> c >= 1.2 * b;
    DivAtLeast(cd, cs, 1.2 * b);
    assert c >= 1.2 * b <==> cd >= 1.2 * b * cs;
    assert b * bs == bd;
    assert cd >= 1.2 * b * cs <==> cd * bs >= 1.2 * b * cs * bs;
    assert 1.2 * b * cs * bs == 1.2 * bd * cs;
  }

  /** Without diseased scans in the baseline week, no farm alerts. */
  lemma NoAlertWithoutBaseline(b: Buckets)
    requires b.baselineDiseased == 0
    ensures !Alerts(b)
  {
    AlertsExactly(b);
  }

  /** The three figures of an alert entry (their percentage text is not modelled). */
  datatype FarmAlert = FarmAlert(currentRate: real, baselineRate: real, increase: real)

  function AlertOf(b: Buckets): FarmAlert {
    var current := Prevalence(b.currentDiseased, b.currentScans);
    var baseline := Prevalence(b.baselineDiseased, b.baselineScans);
    FarmAlert(current, baseline, RiskIncrease(current, baseline))
  }

  datatype OutbreakReport =
    | RiskFound(outbreaks: seq<(string, FarmAlert)>)
    | NoRisk(message: string)
    /** get_all_user_farms failed and returned None: iterating it raises TypeError. */
    | FarmsUnreadable

  const NoFarmsMessage: string :=
    "No geo-tagged farms found for this user. Add coordinates to your farms to enable alerts."
  const NoRiskMessage: string := "No significant Geo-Outbreak risk detected in your region."

  function GeoTaggedFarms(farms: seq<Farm>): (r: seq<Farm>)
    ensures forall f :: f in r <==> f in farms && GeoTagged(f)
  {
    if farms == [] then []
    else GeoTaggedFarms(farms[..|farms| - 1])
         + (if GeoTagged(farms[|farms| - 1]) then [farms[|farms| - 1]] else [])
  }

  /** The buckets of a farm whose coordinates convert; None when float() raises. */
  function FarmBuckets(userId: int, farm: Farm, rows: seq<ScanRow>, currentStart: int, maxKm: real,
                       parseFloat: string -> Option<real>, distance: (Point, Point) -> real): Option<Buckets>
  {
    match Location(farm.latitude, farm.longitude, parseFloat)
    case None => None
    case Some(at) => Some(BucketsOf(userId, at, rows, currentStart, maxKm, parseFloat, distance))
  }

  predicate FarmAlerts(userId: int, farm: Farm, rows: seq<ScanRow>, currentStart: int, maxKm: real,
                       parseFloat: string -> Option<real>, distance: (Point, Point) -> real)
  {
    var b := FarmBuckets(userId, farm, rows, currentStart, maxKm, parseFloat, distance);
    b.Some? && Alerts(b.value)
  }

  /** outbreak_data after the given farms: alerting farms keyed by name, later names overwrite. */
  function OutbreakData(userId: int, farms: seq<Farm>, rows: seq<ScanRow>, currentStart: int, maxKm: real,
                        parseFloat: string -> Option<real>, distance: (Point, Point) -> real)
    : seq<(string, FarmAlert)>
    decreases |farms|
  {
    if farms == [] then []
    else
      var before := OutbreakData(userId, farms[..|farms| - 1], rows, currentStart, maxKm, parseFloat, distance);
      var farm := farms[|farms| - 1];
      var b := FarmBuckets(userId, farm, rows, currentStart, maxKm, parseFloat, distance);
      if b.Some? && Alerts(b.value) then Ordered.Put(before, farm.farmName, AlertOf(b.value)) else before
  }

  /** The outbreak data is keyed by exactly the names of the alerting farms. */
  lemma {:induction false} OutbreakDataKeys(userId: int, farms: seq<Farm>, rows: seq<ScanRow>,
                                            currentStart: int, maxKm: real,
                                            parseFloat: string -> Option<real>, distance: (Point, Point) -> real)
    ensures forall name :: (Ordered.HasKey(OutbreakData(userId, farms, rows, currentStart, maxKm, parseFloat, distance), name)
      <==> exists f | f in farms :: f.farmName == name && FarmAlerts(userId, f, rows, currentStart, maxKm, parseFloat, distance))
    ensures Ordered.UniqueKeys(OutbreakData(userId, farms, rows, currentStart, maxKm, parseFloat, distance))
    decreases |farms|
  {
    if farms != [] {
      var init := farms[..|farms| - 1];
      var farm := farms[|farms| - 1];
      OutbreakDataKeys(userId, init, rows, currentStart, maxKm, parseFloat, distance);
      assert farms == init + [farm];
      var before := OutbreakData(userId, init, rows, currentStart, maxKm, parseFloat, distance);
      var after := OutbreakData(userId, farms, rows, currentStart, maxKm, parseFloat, distance);
      forall name ensures (Ordered.HasKey(after, name)
        <==> exists f | f in farms :: f.farmName == name && FarmAlerts(userId, f, rows, currentStart, maxKm, parseFloat, distance))
      {
        if FarmAlerts(userId, farm, rows, currentStart, maxKm, parseFloat, distance) {
          var b := FarmBuckets(userId, farm, rows, currentStart, maxKm, parseFloat, distance);
          assert after == Ordered.Put(before, farm.farmName, AlertOf(b.value));
          assert Ordered.HasKey(after, name) <==> Ordered.Get(after, name).Some?;
          assert Ordered.HasKey(before, name) <==> Ordered.Get(before, name).Some?;
        }
      }
    }
  }

  /** check_geo_outbreak_risk as a function of its inputs. */
  function GeoOutbreakReport(userId: int, farms: seq<Farm>, rows: seq<ScanRow>, now: int, maxKm: real,
                             parseFloat: string -> Option<real>, distance: (Point, Point) -> real): OutbreakReport
  {
    var targets := GeoTaggedFarms(farms);
    if targets == [] then NoRisk(NoFarmsMessage)
    else
      var data := OutbreakData(userId, targets, rows, now - 7 * SecondsPerDay, maxKm, parseFloat, distance);
      if data != [] then RiskFound(data) else NoRisk(NoRiskMessage)
  }

  /**
   * A risk is reported exactly when some geo-tagged farm alerts, and the
   * outbreaks are keyed by the names of the alerting farms.
   */
  lemma GeoOutbreakRisk(userId: int, farms: seq<Farm>, rows: seq<ScanRow>, now: int, maxKm: real,
                        parseFloat: string -> Option<real>, distance: (Point, Point) -> real)
    ensures var report := GeoOutbreakReport(userId, farms, rows, now, maxKm, parseFloat, distance);
      && ((forall f | f in farms :: !GeoTagged(f)) ==> report == NoRisk(NoFarmsMessage))
      && (report.RiskFound? <==> exists f | f in farms && GeoTagged(f) ::
            FarmAlerts(userId, f, rows, now - 7 * SecondsPerDay, maxKm, parseFloat, distance))
      && (report.RiskFound? ==> forall name :: (Ordered.HasKey(report.outbreaks, name)
            <==> exists f | f in farms && GeoTagged(f) :: f.farmName == name
                   && FarmAlerts(userId, f, rows, now - 7 * SecondsPerDay, maxKm, parseFloat, distance)))
  {
    var targets := GeoTaggedFarms(farms);
    var start := now - 7 * SecondsPerDay;
    OutbreakDataKeys(userId, targets, rows, start, maxKm, parseFloat, distance);
    var data := OutbreakData(userId, targets, rows, start, maxKm, parseFloat, distance);
    if targets == [] {
      forall f | f in farms ensures !GeoTagged(f) { assert f !in targets; }
    } else if data != [] {
      assert targets[0] in farms && GeoTagged(targets[0]);
      assert Ordered.HasKey(data, data[0].0);
    } else {
      assert targets[0] in farms && GeoTagged(targets[0]);
      forall f | f in targets
        ensures !FarmAlerts(userId, f, rows, start, maxKm, parseFloat, distance)
      {
        assert !Ordered.HasKey(data, f.farmName);
      }
    }
  }

  /**
   * check_geo_outbreak_risk: the outer loop over the user's geo-tagged farms.
   * `farmsQuery` is what get_all_user_farms returned, None when its query failed.
   */
  method CheckGeoOutbreakRisk(userId: int, farmsQuery: Option<seq<Farm>>, rows: seq<ScanRow>, now: int, maxKm: real,
                              parseFloat: string -> Option<real>, distance: (Point, Point) -> real)
    returns (report: OutbreakReport)
    ensures farmsQuery.None? <==> report == FarmsUnreadable
    ensures farmsQuery.Some? ==>
      report == GeoOutbreakReport(userId, farmsQuery.value, rows, now, maxKm, parseFloat, distance)
  {
    if farmsQuery.None? {
      return FarmsUnreadable;
    }
    var farms := farmsQuery.value;
    var currentStart := now - 7 * SecondsPerDay;
    var targets := GeoTaggedFarms(farms);
    if targets == [] {
      return NoRisk(NoFarmsMessage);
    }
    var outbreakData: seq<(string, FarmAlert)> := [];
    for i := 0 to |targets|
      invariant outbreakData == OutbreakData(userId, targets[..i], rows, currentStart, maxKm, parseFloat, distance)
    {
      assert targets[..i + 1][..i] == targets[..i];
      var farm := targets[i];
      var at := Location(farm.latitude, farm.longitude, parseFloat);
      if at.None? {
        continue;
      }
      var b := NearbyBuckets(userId, at.value, rows, currentStart, maxKm, parseFloat, distance);
      if Alerts(b) {
        outbreakData := Ordered.Put(outbreakData, farm.farmName, AlertOf(b));
      }
    }
    assert targets[..|targets|] == targets;
    if outbreakData != [] {
      report := RiskFound(outbreakData);
    } else {
      report := NoRisk(NoRiskMessage);
    }
  }
}

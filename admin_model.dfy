/**
 * AdminModel: the site-wide aggregates behind the admin dashboard. The SQL
 * result rows are inputs; the post-processing in Python is modelled.
 */
module AdminModel {
  import opened Wrappers
  import Ordered

  /** The default LIMIT of the distribution query. */
  const DefaultLimit: nat := 8

  /** A row of the grouped distribution query: (predicted_class, count). */
  type ClassCount = (string, int)

  /** {cls: 0 for cls in classes} */
  function Seed(classes: seq<string>): (d: seq<(string, int)>)
    ensures Ordered.UniqueKeys(d)
    ensures forall k :: Ordered.Get(d, k) == if k in classes then Some(0) else None
    decreases |classes|
  {
    if classes == [] then []
    else Ordered.Put(Seed(classes[..|classes| - 1]), classes[|classes| - 1], 0)
  }

  /** The distribution after the overwrite loop has handled the given rows. */
  function Overwrite(d: seq<(string, int)>, rows: seq<ClassCount>): seq<(string, int)>
    decreases |rows|
  {
    if rows == [] then d
    else Ordered.Put(Overwrite(d, rows[..|rows| - 1]), rows[|rows| - 1].0, rows[|rows| - 1].1)
  }

  /** The count the last row of the class carries, if any row does. */
  function LastCount(rows: seq<ClassCount>, k: string): Option<int>
    decreases |rows|
  {
    if rows == [] then None
    else if rows[|rows| - 1].0 == k then Some(rows[|rows| - 1].1)
    else LastCount(rows[..|rows| - 1], k)
  }

  /**
   * Every configured class is present, a class a row names carries that
   * row's count (the last one wins), and classes outside the configuration
   * appear only when a row names them.
   */
  lemma {:induction false} OverwriteMeaning(d: seq<(string, int)>, rows: seq<ClassCount>)
    requires Ordered.UniqueKeys(d)
    ensures Ordered.UniqueKeys(Overwrite(d, rows))
    ensures forall k :: Ordered.Get(Overwrite(d, rows), k)
                     == if LastCount(rows, k).Some? then LastCount(rows, k) else Ordered.Get(d, k)
    decreases |rows|
  {
    if rows != [] {
      OverwriteMeaning(d, rows[..|rows| - 1]);
    }
  }

  /** The rows the database returns for LIMIT limit. */
  function Limit(rows: seq<ClassCount>, limit: nat): (r: seq<ClassCount>)
    ensures |r| <= limit && r <= rows
    ensures |rows| <= limit ==> r == rows
  {
    if |rows| <= limit then rows else rows[..limit]
  }

  class AdminModel {
    var classes: seq<string>

    /** `disease_classes or []`: None (and an empty list) leave no classes. */
    constructor(diseaseClasses: Option<seq<string>>)
      ensures classes == if diseaseClasses.Some? then diseaseClasses.value else []
    {
      classes := if diseaseClasses.Some? then diseaseClasses.value else [];
    }

    /**
     * get_disease_distribution. `grouped` is the grouped, count-ordered
     * query result before LIMIT, or None when the query fails.
     */
    method GetDiseaseDistribution(grouped: Option<seq<ClassCount>>, limit: nat := DefaultLimit)
      returns (distribution: seq<(string, int)>)
      ensures grouped.None? ==> distribution == []
      ensures grouped.Some? ==>
        distribution == Overwrite(Seed(classes), Limit(grouped.value, limit))
    {
      if grouped.None? {
        return [];
      }
      var results := Limit(grouped.value, limit);
      distribution := Seed(classes);
      for i := 0 to |results|
        invariant distribution == Overwrite(Seed(classes), results[..i])
      {
        assert results[..i + 1][..i] == results[..i];
        distribution := Ordered.Put(distribution, results[i].0, results[i].1);
      }
      assert results[..|results|] == results;
    }
  }

  /** A successful distribution names every configured class, zero unless a row counts it. */
  lemma DistributionMeaning(classes: seq<string>, rows: seq<ClassCount>, limit: nat)
    ensures var d := Overwrite(Seed(classes), Limit(rows, limit));
      && Ordered.UniqueKeys(d)
      && (forall k | k in classes :: Ordered.HasKey(d, k))
      && (forall k | k in classes && LastCount(Limit(rows, limit), k).None? :: Ordered.Get(d, k) == Some(0))
      && (forall k | LastCount(Limit(rows, limit), k).Some? :: Ordered.Get(d, k) == LastCount(Limit(rows, limit), k))
      && (forall k | k !in classes && LastCount(Limit(rows, limit), k).None? :: !Ordered.HasKey(d, k))
  {
    OverwriteMeaning(Seed(classes), Limit(rows, limit));
  }

  /** get_system_metrics: the four counters, or None when a count query fails (None['count'] raises). */
  method GetSystemMetrics(users: Option<int>, scans: Option<int>, farms: Option<int>, trees: Option<int>)
    returns (metrics: Option<seq<(string, int)>>)
    ensures metrics.Some? <==> users.Some? && scans.Some? && farms.Some? && trees.Some?
    ensures metrics.Some? ==>
      && Ordered.Keys(metrics.value) == ["total_users", "total_scans", "total_farms", "total_trees"]
      && Ordered.Values(metrics.value) == [users.value, scans.value, farms.value, trees.value]
  {
    // Each assignment adds a key the dict does not hold yet, so it appends.
    var m: seq<(string, int)> := [];
    if users.None? { return None; }
    m := m + [("total_users", users.value)];
    if scans.None? { return None; }
    m := m + [("total_scans", scans.value)];
    if farms.None? { return None; }
    m := m + [("total_farms", farms.value)];
    if trees.None? { return None; }
    m := m + [("total_trees", trees.value)];
    metrics := Some(m);
  }
}

/**
 * `LocationMixin` (e_ride/base/mixins.py): PostGIS text for a location, distances between
 * locations, and the nearest-instance query with its id-to-instance mapping loop.
 * Locations here are `(lat, lon)` pairs; the database's distance is `Host.geoMetres`.
 */
module LocationMixin {
  import opened Wrappers
  import opened Py
  import Strings

  const EwktPrefix: string := "SRID=4326;POINT("

  /** `get_prep_value`: the PostGIS EWKT point `SRID=4326;POINT(lon lat)`; unpacking None raises TypeError. */
  function PrepValue(h: Host, location: Option<Pair>): (r: Result<string, Error>)
    ensures location.None? <==> r == Err(TypeError)
    ensures location.Some? ==> r.Ok?
  {
    match location
    case None => Err(TypeError)
    case Some(p) => Ok(EwktPrefix + h.showFloat(p.snd) + " " + h.showFloat(p.fst) + ")")
  }

  /** Reads an EWKT point of SRID 4326 back as `(lat, lon)`: the first coordinate is the longitude. */
  function ParseEwkt(h: Host, s: string): (r: Option<Pair>)
    ensures r.Some? ==> |s| > |EwktPrefix| && s[..|EwktPrefix|] == EwktPrefix && s[|s| - 1] == ')'
  {
    if |s| <= |EwktPrefix| || s[..|EwktPrefix|] != EwktPrefix || s[|s| - 1] != ')' then None
    else
      var parts := Strings.Split(s[|EwktPrefix|..|s| - 1], ' ');
      if |parts| != 2 then None
      else match (h.parseFloat(parts[0]), h.parseFloat(parts[1]))
        case (Some(lon), Some(lat)) => Some(Pair(lat, lon))
        case _ => None
  }

  /** The float rendering is read back by the float parser and contains no space. */
  predicate ShowsCleanly(h: Host, x: real)
  {
    ' ' !in h.showFloat(x) && h.parseFloat(h.showFloat(x)) == Some(x)
  }

  /** The EWKT text names the point's longitude first and its latitude second, and nothing else. */
  lemma {:induction false} PrepValueRoundTrip(h: Host, p: Pair)
    requires ShowsCleanly(h, p.fst) && ShowsCleanly(h, p.snd)
    ensures PrepValue(h, Some(p)).Ok?
    ensures ParseEwkt(h, PrepValue(h, Some(p)).value) == Some(p)
  {
    var lon, lat := h.showFloat(p.snd), h.showFloat(p.fst);
    var s := EwktPrefix + lon + " " + lat + ")";
    assert s[..|EwktPrefix|] == EwktPrefix;
    assert s[|EwktPrefix|..|s| - 1] == lon + [' '] + lat;
    Strings.SplitPair(lon, ' ', lat);
  }

  /** `distance`: the database distance from this location to another, in kilometres. */
  function Distance(h: Host, here: Option<Pair>, there: Option<Pair>): (r: Result<real, Error>)
    ensures r.Ok? <==> here.Some? && there.Some?
    ensures r.Err? ==> r.error == TypeError
    ensures r.Ok? ==> r.value * 1000.0 == h.geoMetres(here.value, there.value)
  {
    var _ :- PrepValue(h, here);
    var _ :- PrepValue(h, there);
    Ok(h.geoMetres(here.value, there.value) / 1000.0)
  }

  /** `distance_to`: AttributeError for an object without a `location`, else the distance to it. */
  function DistanceTo(h: Host, here: Option<Pair>, other: Attr<Option<Pair>>): (r: Result<real, Error>)
    ensures other.Missing? ==> r == Err(AttributeError)
    ensures other.Present? ==> r == Distance(h, here, other.value)
  {
    match other
    case Missing => Err(AttributeError)
    case Present(loc) => Distance(h, here, loc)
  }

  /** A row of a table that has a nullable `location`: primary key, location, and the instance `objects.get` builds. */
  datatype Record<I> = Record(id: string, location: Option<Pair>, instance: I)

  /** A row of the query's answer: the table row and `ST_Distance(location, origin)` in metres. */
  datatype Hit<I> = Hit(row: Record<I>, distance: real)

  /** `WHERE location IS NOT NULL` and, for a non-empty `exclude_ids`, `AND id NOT IN exclude_ids`. */
  predicate Selected<I>(r: Record<I>, excludeIds: Option<seq<string>>)
  {
    r.location.Some? && !(excludeIds.Some? && |excludeIds.value| > 0 && r.id in excludeIds.value)
  }

  /** The rows the WHERE clause keeps, in table order, each with its distance to the origin. */
  function Candidates<I>(h: Host, table: seq<Record<I>>, origin: Pair, excludeIds: Option<seq<string>>): (c: seq<Hit<I>>)
    ensures |c| <= |table|
    ensures forall k :: 0 <= k < |c| ==>
      c[k].row in table && Selected(c[k].row, excludeIds) && c[k].distance == h.geoMetres(c[k].row.location.value, origin)
  {
    if |table| == 0 then []
    else
      var rest := Candidates(h, table[1..], origin, excludeIds);
      if Selected(table[0], excludeIds)
      then [Hit(table[0], h.geoMetres(table[0].location.value, origin))] + rest
      else rest
  }

  /** Every row of the table that the WHERE clause keeps is a candidate. */
  lemma {:induction false} CandidatesComplete<I>(h: Host, table: seq<Record<I>>, origin: Pair, excludeIds: Option<seq<string>>, r: Record<I>)
    requires r in table && Selected(r, excludeIds)
    ensures Hit(r, h.geoMetres(r.location.value, origin)) in Candidates(h, table, origin, excludeIds)
  {
    if table[0] != r {
      CandidatesComplete(h, table[1..], origin, excludeIds, r);
    }
  }

  /** `if exclude_ids:` skips the clause, so None and the empty list exclude nothing. */
  lemma {:induction false} NoExclusion<I>(h: Host, table: seq<Record<I>>, origin: Pair)
    ensures Candidates(h, table, origin, None) == Candidates(h, table, origin, Some([]))
    ensures forall k :: 0 <= k < |table| && table[k].location.Some? ==>
      Hit(table[k], h.geoMetres(table[k].location.value, origin)) in Candidates(h, table, origin, None)
  {
    if |table| > 0 {
      NoExclusion(h, table[1..], origin);
      forall k | 0 <= k < |table| && table[k].location.Some?
        ensures Hit(table[k], h.geoMetres(table[k].location.value, origin)) in Candidates(h, table, origin, None)
      {
        CandidatesComplete(h, table, origin, None, table[k]);
      }
    }
  }

  predicate SortedByDistance<I>(s: seq<Hit<I>>)
  {
    forall i, j :: 0 <= i < j < |s| ==> s[i].distance <= s[j].distance
  }

  /** Insert a hit in front of the first hit that is not nearer. */
  function Insert<I>(x: Hit<I>, s: seq<Hit<I>>): (r: seq<Hit<I>>)
    ensures |r| == |s| + 1
    ensures x in r
  {
    if |s| == 0 then [x]
    else if x.distance <= s[0].distance then [x] + s
    else [s[0]] + Insert(x, s[1..])
  }

  /** `ORDER BY distance ASC`; this order keeps equal distances in table order, one of the orders SQL allows. */
  function OrderByDistance<I>(s: seq<Hit<I>>): (r: seq<Hit<I>>)
    ensures |r| == |s|
  {
    if |s| == 0 then [] else Insert(s[0], OrderByDistance(s[1..]))
  }

  /** No hit of `s` is nearer than `d`. */
  predicate NoneNearer<I>(d: real, s: seq<Hit<I>>)
  {
    forall k :: 0 <= k < |s| ==> d <= s[k].distance
  }

  lemma SortedCons<I>(a: Hit<I>, s: seq<Hit<I>>)
    requires SortedByDistance(s) && NoneNearer(a.distance, s)
    ensures SortedByDistance([a] + s)
  {
  }

  lemma {:induction false} InsertMultiset<I>(x: Hit<I>, s: seq<Hit<I>>)
    ensures multiset(Insert(x, s)) == multiset(s) + multiset{x}
  {
    if |s| > 0 && x.distance > s[0].distance {
      InsertMultiset(x, s[1..]);
      assert s == [s[0]] + s[1..];
    }
  }

  lemma {:induction false} InsertSorted<I>(x: Hit<I>, s: seq<Hit<I>>)
    requires SortedByDistance(s)
    ensures SortedByDistance(Insert(x, s))
  {
    if |s| > 0 {
      if x.distance > s[0].distance {
        InsertSorted(x, s[1..]);
        var t := Insert(x, s[1..]);
        InsertMultiset(x, s[1..]);
        forall k | 0 <= k < |t|
          ensures s[0].distance <= t[k].distance
        {
          assert t[k] in multiset(t);
          if t[k] != x {
            assert t[k] in multiset(s[1..]);
          }
        }
        SortedCons(s[0], t);
      } else {
        SortedCons(x, s);
      }
    }
  }

  lemma {:induction false} OrderByDistanceSorted<I>(s: seq<Hit<I>>)
    ensures SortedByDistance(OrderByDistance(s))
    ensures multiset(OrderByDistance(s)) == multiset(s)
  {
    if |s| > 0 {
      OrderByDistanceSorted(s[1..]);
      InsertSorted(s[0], OrderByDistance(s[1..]));
      InsertMultiset(s[0], OrderByDistance(s[1..]));
      assert s == [s[0]] + s[1..];
    }
  }

  /** `LIMIT n`. */
  function Limit<T>(s: seq<T>, n: nat): (r: seq<T>)
    ensures |r| == if n < |s| then n else |s|
    ensures r <= s
  {
    if n < |s| then s[..n] else s
  }

  /**
   * What the SQL statement may answer: at most `limit` of the candidates, nearest first, and no
   * candidate left out is nearer than one kept. Ties may come in any order.
   */
  ghost predicate IsNearestAnswer<I>(answer: seq<Hit<I>>, candidates: seq<Hit<I>>, limit: nat)
  {
    && |answer| == (if limit < |candidates| then limit else |candidates|)
    && SortedByDistance(answer)
    && multiset(answer) <= multiset(candidates)
    && forall a, c :: a in answer && c in multiset(candidates) - multiset(answer) ==> a.distance <= c.distance
  }

  /**
   * The query of `find_nearest_instances` (cursor.execute and fetchall): TypeError when this
   * instance has no location (get_prep_value(None)), a database error for a negative LIMIT,
   * otherwise the nearest selected rows.
   */
  function NearestQuery<I>(h: Host, table: seq<Record<I>>, origin: Option<Pair>, excludeIds: Option<seq<string>>, limit: int): (r: Result<seq<Hit<I>>, Error>)
    ensures origin.None? ==> r == Err(TypeError)
    ensures r.Err? ==> origin.None? || limit < 0
    ensures origin.Some? && limit < 0 ==> r == Err(DatabaseError)
  {
    var _ :- PrepValue(h, origin);
    if limit < 0 then Err(DatabaseError)
    else Ok(Limit(OrderByDistance(Candidates(h, table, origin.value, excludeIds)), limit))
  }

  /** In a sorted sequence, nothing after position `n` is nearer than anything before it. */
  lemma SortedSplit<I>(s: seq<Hit<I>>, n: nat)
    requires SortedByDistance(s) && n <= |s|
    ensures forall a, c :: a in s[..n] && c in multiset(s[n..]) ==> a.distance <= c.distance
  {
    forall a, c | a in s[..n] && c in multiset(s[n..])
      ensures a.distance <= c.distance
    {
      var i :| 0 <= i < n && s[..n][i] == a;
      var k :| 0 <= k < |s[n..]| && s[n..][k] == c;
      assert s[i] == a && s[n + k] == c;
    }
  }

  /** The first `limit` hits of a sorted permutation of the candidates are an allowed answer. */
  lemma LimitIsNearestAnswer<I>(sorted: seq<Hit<I>>, candidates: seq<Hit<I>>, limit: nat)
    requires SortedByDistance(sorted) && multiset(sorted) == multiset(candidates)
    ensures IsNearestAnswer(Limit(sorted, limit), candidates, limit)
  {
    var n := if limit < |sorted| then limit else |sorted|;
    assert |sorted| == |candidates| by {
      assert |multiset(sorted)| == |multiset(candidates)|;
    }
    assert sorted == sorted[..n] + sorted[n..];
    assert multiset(sorted) == multiset(sorted[..n]) + multiset(sorted[n..]);
    assert multiset(candidates) - multiset(sorted[..n]) == multiset(sorted[n..]);
    SortedSplit(sorted, n);
  }

  /** The query's answer is one the SQL statement allows. */
  lemma NearestQueryIsAnswer<I>(h: Host, table: seq<Record<I>>, origin: Pair, excludeIds: Option<seq<string>>, limit: nat)
    ensures NearestQuery(h, table, Some(origin), excludeIds, limit).Ok?
    ensures IsNearestAnswer(NearestQuery(h, table, Some(origin), excludeIds, limit).value,
                            Candidates(h, table, origin, excludeIds), limit)
  {
    var cands := Candidates(h, table, origin, excludeIds);
    OrderByDistanceSorted(cands);
    LimitIsNearestAnswer(OrderByDistance(cands), cands, limit);
  }

  /** The answer's rows are table rows that have a location and are not excluded. */
  lemma NearestQueryRows<I>(h: Host, table: seq<Record<I>>, origin: Pair, excludeIds: Option<seq<string>>, limit: nat)
    ensures var q := NearestQuery(h, table, Some(origin), excludeIds, limit);
      q.Ok? && forall k :: 0 <= k < |q.value| ==>
        q.value[k].row in table && q.value[k].row.location.Some? && Selected(q.value[k].row, excludeIds)
        && q.value[k].distance == h.geoMetres(q.value[k].row.location.value, origin)
  {
    var cands := Candidates(h, table, origin, excludeIds);
    NearestQueryIsAnswer(h, table, origin, excludeIds, limit);
    var answer := NearestQuery(h, table, Some(origin), excludeIds, limit).value;
    forall k | 0 <= k < |answer|
      ensures answer[k] in cands
    {
      assert answer[k] in multiset(answer);
    }
  }

  /** `model_class.objects.get(id=...)`: the first row with that primary key, or DoesNotExist. */
  function Get<I>(table: seq<Record<I>>, id: string): (r: Option<I>)
    ensures r.Some? <==> exists k :: 0 <= k < |table| && table[k].id == id
  {
    if |table| == 0 then None
    else if table[0].id == id then Some(table[0].instance)
    else Get(table[1..], id)
  }

  /** Primary keys are unique. */
  predicate UniqueIds<I>(table: seq<Record<I>>)
  {
    forall i, j :: 0 <= i < j < |table| ==> table[i].id != table[j].id
  }

  /** With unique primary keys, looking a row's id up gives that row's instance. */
  lemma {:induction false} GetRow<I>(table: seq<Record<I>>, r: Record<I>)
    requires UniqueIds(table) && r in table
    ensures Get(table, r.id) == Some(r.instance)
  {
    if table[0] != r {
      assert table[0].id != r.id by {
        var k :| 0 <= k < |table| && table[k] == r;
      }
      GetRow(table[1..], r);
    }
  }

  /**
   * `find_nearest_instances(model_class, exclude_ids, limit)`: run the query, then look each
   * answered id up and pair its instance with the row's distance, in answer order.
   */
  method FindNearestInstances<I(==)>(h: Host, table: seq<Record<I>>, location: Option<Pair>,
                                    excludeIds: Option<seq<string>>, limit: int)
    returns (r: Result<seq<(I, real)>, Error>)
    ensures location.None? ==> r == Err(TypeError)
    ensures location.Some? && limit >= 0 ==> r.Ok?
    ensures r.Ok? ==> NearestQuery(h, table, location, excludeIds, limit).Ok?
    ensures r.Ok? ==> var q := NearestQuery(h, table, location, excludeIds, limit).value;
      && |r.value| == |q| <= limit
      && forall k :: 0 <= k < |q| ==>
           Get(table, q[k].row.id).Some? && r.value[k] == (Get(table, q[k].row.id).value, q[k].distance)
    ensures r.Ok? ==> forall i, j :: 0 <= i < j < |r.value| ==> r.value[i].1 <= r.value[j].1
  {
    var q := NearestQuery(h, table, location, excludeIds, limit);
    if q.Err? {
      return Err(q.error);
    }
    NearestQueryIsAnswer(h, table, location.value, excludeIds, limit);
    NearestQueryRows(h, table, location.value, excludeIds, limit);
    var results := q.value;
    var found: seq<(I, real)> := [];
    for k := 0 to |results|
      invariant |found| == k
      invariant forall j :: 0 <= j < k ==>
        Get(table, results[j].row.id).Some? && found[j] == (Get(table, results[j].row.id).value, results[j].distance)
    {
      var row := results[k].row;
      ghost var i :| 0 <= i < |table| && table[i] == row;
      var instance := Get(table, row.id).value;
      found := found + [(instance, results[k].distance)];
    }
    return Ok(found);
  }
}

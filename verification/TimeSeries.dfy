/**
 * The time-series store: `Store` appends, sorts, truncates and expires, over and over, and the store always holds what
 * one look at everything ever stored would give.
 */
module TimeSeries {

  datatype Point = Point(time: int, value: real)

  /** A string made by getSeriesKey. */
  datatype Key = Key(text: string)

  /** `key` is what getSeriesKey makes of the name and the tags. */
  datatype Metric = Metric(key: Key, name: string, tags: map<string, string>, time: int, value: real)

  datatype Series = Series(name: string, tags: map<string, string>, points: seq<Point>)

  // ---------- Lists of points ----------

  ghost predicate Sorted(s: seq<Point>) {
    forall i, j :: 0 <= i < j < |s| ==> s[i].time <= s[j].time
  }

  function Insert(s: seq<Point>, p: Point): seq<Point> {
    if s == [] || s[|s| - 1].time <= p.time then s + [p]
    else Insert(s[..|s| - 1], p) + [s[|s| - 1]]
  }

  function Sort(s: seq<Point>): seq<Point> {
    if s == [] then [] else Insert(Sort(s[..|s| - 1]), s[|s| - 1])
  }

  ghost predicate NoneLater(s: seq<Point>, time: int) {
    forall i :: 0 <= i < |s| ==> s[i].time <= time
  }

  /** A list is sorted if and only if its beginning is and none of it is later than the last point. */
  lemma SortedSnoc(s: seq<Point>, p: Point)
    ensures Sorted(s + [p]) <==> Sorted(s) && NoneLater(s, p.time)
  {
    var t := s + [p];
    assert t[|s|] == p && forall i :: 0 <= i < |s| ==> t[i] == s[i];
  }

  lemma NoneLaterSnoc(s: seq<Point>, p: Point, time: int)
    ensures NoneLater(s + [p], time) <==> NoneLater(s, time) && p.time <= time
  {
    var t := s + [p];
    assert t[|s|] == p && forall i :: 0 <= i < |s| ==> t[i] == s[i];
  }

  lemma SortedLast(s: seq<Point>, p: Point)
    requires Sorted(s) && (s == [] || s[|s| - 1].time <= p.time)
    ensures NoneLater(s, p.time)
  {
  }

  lemma {:induction false} InsertPermutes(s: seq<Point>, p: Point)
    ensures multiset(Insert(s, p)) == multiset(s) + multiset{p}
  {
    if s != [] && s[|s| - 1].time > p.time {
      assert s == s[..|s| - 1] + [s[|s| - 1]];
      InsertPermutes(s[..|s| - 1], p);
    }
  }

  lemma {:induction false} InsertNoneLater(s: seq<Point>, p: Point, time: int)
    requires NoneLater(s, time) && p.time <= time
    ensures NoneLater(Insert(s, p), time)
  {
    if s != [] && s[|s| - 1].time > p.time {
      InsertNoneLater(s[..|s| - 1], p, time);
      NoneLaterSnoc(Insert(s[..|s| - 1], p), s[|s| - 1], time);
    } else {
      NoneLaterSnoc(s, p, time);
    }
  }

  lemma {:induction false} InsertSorted(s: seq<Point>, p: Point)
    requires Sorted(s)
    ensures Sorted(Insert(s, p))
  {
    hide Sorted, NoneLater;
    if s == [] || s[|s| - 1].time <= p.time {
      SortedLast(s, p);
      SortedSnoc(s, p);
    } else {
      var init, last := s[..|s| - 1], s[|s| - 1];
      assert s == init + [last];
      SortedSnoc(init, last);
      InsertSorted(init, p);
      InsertNoneLater(init, p, last.time);
      SortedSnoc(Insert(init, p), last);
    }
  }

  /** Every list has a sorted permutation. */
  lemma {:induction false} SortSorted(s: seq<Point>)
    ensures Sorted(Sort(s)) && multiset(Sort(s)) == multiset(s)
  {
    hide Insert;
    if s == [] {
      assert Sorted([]);
    } else {
      var init, last := s[..|s| - 1], s[|s| - 1];
      hide Sorted;
      assert s == init + [last];
      SortSorted(init);
      InsertSorted(Sort(init), last);
      InsertPermutes(Sort(init), last);
    }
  }

  function Last(s: seq<Point>, n: nat): seq<Point> {
    if |s| > n then s[|s| - n..] else s
  }

  function After(s: seq<Point>, cutoff: int): seq<Point> {
    if s == [] then []
    else After(s[..|s| - 1], cutoff) + if s[|s| - 1].time > cutoff then [s[|s| - 1]] else []
  }

  function Between(s: seq<Point>, start: int, end: int): seq<Point> {
    if s == [] then []
    else Between(s[..|s| - 1], start, end) + if start <= s[|s| - 1].time <= end then [s[|s| - 1]] else []
  }

  /** The newest n of all points, of which those not after the cutoff have expired. */
  function Newest(all: seq<Point>, n: nat, cutoff: int): seq<Point> {
    After(Last(Sort(all), n), cutoff)
  }

  ghost predicate SameTimes(s: seq<Point>, r: seq<Point>) {
    |s| == |r| && forall i :: 0 <= i < |s| ==> s[i].time == r[i].time
  }

  /** The points of a series: taken from all that were stored, with the time stamps of the newest of them, in order. */
  ghost predicate IsNewest(points: seq<Point>, all: seq<Point>, n: nat, cutoff: int) {
    SameTimes(points, Newest(all, n, cutoff)) && multiset(points) <= multiset(all)
  }

  // ---------- How many points are newer than a time ----------

  function Above(s: seq<Point>, t: int): nat {
    if s == [] then 0 else Above(s[..|s| - 1], t) + if s[|s| - 1].time > t then 1 else 0
  }

  function Min(a: nat, b: nat): nat {
    if a <= b then a else b
  }

  lemma {:induction false} AboveConcat(a: seq<Point>, b: seq<Point>, t: int)
    ensures Above(a + b, t) == Above(a, t) + Above(b, t)
  {
    if b == [] {
      assert a + b == a;
    } else {
      assert (a + b)[..|a + b| - 1] == a + b[..|b| - 1];
      AboveConcat(a, b[..|b| - 1], t);
    }
  }

  lemma {:induction false} AboveNone(s: seq<Point>, t: int)
    requires forall i :: 0 <= i < |s| ==> s[i].time <= t
    ensures Above(s, t) == 0
  {
    if s != [] { AboveNone(s[..|s| - 1], t); }
  }

  lemma {:induction false} AboveAll(s: seq<Point>, t: int)
    ensures Above(s, t) <= |s|
    ensures (forall i :: 0 <= i < |s| ==> s[i].time > t) ==> Above(s, t) == |s|
  {
    if s != [] { AboveAll(s[..|s| - 1], t); }
  }

  lemma AboveRemove(s: seq<Point>, k: nat, t: int)
    requires k < |s|
    ensures Above(s, t) == Above(s[..k] + s[k + 1..], t) + Above([s[k]], t)
  {
    assert s == s[..k] + [s[k]] + s[k + 1..];
    AboveConcat(s[..k] + [s[k]], s[k + 1..], t);
    AboveConcat(s[..k], [s[k]], t);
    AboveConcat(s[..k], s[k + 1..], t);
  }

  lemma RemoveSame(s: seq<Point>, k: nat, r: seq<Point>, j: nat)
    requires k < |s| && j < |r| && s[k] == r[j] && multiset(s) == multiset(r)
    ensures multiset(s[..k] + s[k + 1..]) == multiset(r[..j] + r[j + 1..])
  {
    RemoveOne(s, k);
    RemoveOne(r, j);
  }

  lemma RemoveOne(s: seq<Point>, k: nat)
    requires k < |s|
    ensures multiset(s[..k] + s[k + 1..]) == multiset(s) - multiset{s[k]}
  {
    assert s == s[..k] + [s[k]] + s[k + 1..];
  }

  lemma {:induction false} AbovePermuted(s: seq<Point>, r: seq<Point>, t: int)
    requires multiset(s) == multiset(r)
    ensures Above(s, t) == Above(r, t)
    decreases |s|
  {
    if s == [] {
      assert |multiset(r)| == 0;
    } else {
      assert s[0] in multiset(r);
      var k :| 0 <= k < |r| && r[k] == s[0];
      RemoveSame(s, 0, r, k);
      AboveRemove(s, 0, t);
      AboveRemove(r, k, t);
      AbovePermuted(s[..0] + s[1..], r[..k] + r[k + 1..], t);
    }
  }

  /** In a sorted list, where a position lies relative to t bounds how many points are newer. */
  lemma AboveAt(s: seq<Point>, i: nat, t: int)
    requires Sorted(s) && i < |s|
    ensures s[i].time <= t ==> Above(s, t) < |s| - i
    ensures s[i].time > t ==> Above(s, t) >= |s| - i
  {
    hide Above;
    if s[i].time <= t {
      assert s == s[..i + 1] + s[i + 1..];
      AboveConcat(s[..i + 1], s[i + 1..], t);
      AboveNone(s[..i + 1], t);
      AboveAll(s[i + 1..], t);
    } else {
      assert s == s[..i] + s[i..];
      AboveConcat(s[..i], s[i..], t);
      AboveAll(s[i..], t);
    }
  }

  lemma AboveLast(s: seq<Point>, n: nat, t: int)
    requires Sorted(s)
    ensures Above(Last(s, n), t) == Min(Above(s, t), n)
  {
    hide Above;
    AboveAll(s, t);
    if |s| > n {
      var k := |s| - n;
      assert s == s[..k] + s[k..];
      AboveConcat(s[..k], s[k..], t);
      AboveAll(s[k..], t);
      if s[k - 1].time <= t {
        AboveNone(s[..k], t);
      } else {
        forall i | 0 <= i < n ensures s[k..][i].time > t {
          assert s[k - 1].time <= s[k + i].time;
        }
      }
    }
  }

  lemma {:induction false} AboveAfter(s: seq<Point>, cutoff: int, t: int)
    requires cutoff <= t
    ensures Above(After(s, cutoff), t) == Above(s, t)
  {
    if s != [] {
      var p := s[|s| - 1];
      AboveAfter(s[..|s| - 1], cutoff, t);
      AboveConcat(After(s[..|s| - 1], cutoff), if p.time > cutoff then [p] else [], t);
      assert p.time > cutoff ==> Above([p], t) == if p.time > t then 1 else 0;
    }
  }

  lemma {:induction false} AfterNoneLater(s: seq<Point>, cutoff: int, time: int)
    requires NoneLater(s, time)
    ensures NoneLater(After(s, cutoff), time)
  {
    if s != [] { AfterNoneLater(s[..|s| - 1], cutoff, time); }
  }

  lemma {:induction false} AfterWithin(s: seq<Point>, cutoff: int)
    ensures multiset(After(s, cutoff)) <= multiset(s)
  {
    if s != [] {
      assert s == s[..|s| - 1] + [s[|s| - 1]];
      AfterWithin(s[..|s| - 1], cutoff);
    }
  }

  ghost predicate AllAfter(s: seq<Point>, time: int) {
    forall i :: 0 <= i < |s| ==> s[i].time > time
  }

  lemma {:induction false} AfterLater(s: seq<Point>, cutoff: int)
    ensures AllAfter(After(s, cutoff), cutoff)
  {
    if s != [] { AfterLater(s[..|s| - 1], cutoff); }
  }

  lemma {:induction false} AfterStaysSorted(s: seq<Point>, cutoff: int)
    requires Sorted(s)
    ensures Sorted(After(s, cutoff))
  {
    hide Sorted, NoneLater;
    if s != [] {
      var init, last := s[..|s| - 1], s[|s| - 1];
      assert s == init + [last];
      SortedSnoc(init, last);
      AfterStaysSorted(init, cutoff);
      AfterNoneLater(init, cutoff, last.time);
      SortedSnoc(After(init, cutoff), last);
      assert After(init, cutoff) + [] == After(init, cutoff);
    }
  }

  lemma AfterSorted(s: seq<Point>, cutoff: int)
    requires Sorted(s)
    ensures var r := After(s, cutoff);
      && Sorted(r) && multiset(r) <= multiset(s)
      && forall i :: 0 <= i < |r| ==> r[i].time > cutoff && r[i] in s
  {
    AfterWithin(s, cutoff);
    AfterLater(s, cutoff);
    AfterStaysSorted(s, cutoff);
    hide After, Sorted;
    var r := After(s, cutoff);
    forall i | 0 <= i < |r| ensures r[i] in s {
      assert r[i] in multiset(r);
      assert r[i] in multiset(s);
    }
  }

  lemma LastSorted(s: seq<Point>, n: nat)
    requires Sorted(s)
    ensures Sorted(Last(s, n)) && multiset(Last(s, n)) <= multiset(s)
  {
    if |s| > n { assert s == s[..|s| - n] + Last(s, n); }
  }

  lemma {:induction false} SameTimesAbove(s: seq<Point>, r: seq<Point>, t: int)
    requires SameTimes(s, r)
    ensures Above(s, t) == Above(r, t)
  {
    if s != [] { SameTimesAbove(s[..|s| - 1], r[..|r| - 1], t); }
  }

  /** Counting the newer points determines the time stamps of a sorted list. */
  lemma CountsDetermine(s: seq<Point>, r: seq<Point>, cutoff: int)
    requires Sorted(s) && Sorted(r)
    requires forall i :: 0 <= i < |s| ==> s[i].time > cutoff
    requires forall i :: 0 <= i < |r| ==> r[i].time > cutoff
    requires forall t :: cutoff <= t ==> Above(s, t) == Above(r, t)
    ensures SameTimes(s, r)
  {
    AboveAll(s, cutoff);
    AboveAll(r, cutoff);
    forall i | 0 <= i < |s| ensures s[i].time == r[i].time {
      AboveAt(s, i, s[i].time);
      AboveAt(r, i, s[i].time);
      AboveAt(s, i, r[i].time);
      AboveAt(r, i, r[i].time);
    }
  }

  // ---------- What a series keeps between two calls of cleanupOldData ----------

  ghost predicate Keeps(points: seq<Point>, all: seq<Point>, n: nat, cutoff: int) {
    && Sorted(points) && multiset(points) <= multiset(all)
    && forall t :: cutoff <= t ==> Above(points, t) == Min(Above(all, t), n)
  }

  lemma NewestCounts(all: seq<Point>, n: nat, cutoff: int)
    ensures var r := Newest(all, n, cutoff);
      && Sorted(r) && multiset(r) <= multiset(all)
      && (forall i :: 0 <= i < |r| ==> r[i].time > cutoff)
      && (forall t :: cutoff <= t ==> Above(r, t) == Min(Above(all, t), n))
  {
    var sorted := Sort(all);
    SortSorted(all);
    LastSorted(sorted, n);
    AfterSorted(Last(sorted, n), cutoff);
    forall t | cutoff <= t ensures Above(Newest(all, n, cutoff), t) == Min(Above(all, t), n) {
      AboveAfter(Last(sorted, n), cutoff, t);
      AboveLast(sorted, n, t);
      AbovePermuted(sorted, all, t);
    }
  }

  lemma NewestKeeps(points: seq<Point>, all: seq<Point>, n: nat, cutoff: int)
    requires IsNewest(points, all, n, cutoff)
    ensures Keeps(points, all, n, cutoff)
  {
    var r := Newest(all, n, cutoff);
    NewestCounts(all, n, cutoff);
    forall t | cutoff <= t ensures Above(points, t) == Min(Above(all, t), n) {
      SameTimesAbove(points, r, t);
    }
    forall i, j | 0 <= i < j < |points| ensures points[i].time <= points[j].time {
      assert r[i].time <= r[j].time;
    }
  }

  /** Appending new points, sorting and truncating: truncation in earlier calls has lost nothing that counts now. */
  lemma AddKeeps(points: seq<Point>, all: seq<Point>, more: seq<Point>, sorted: seq<Point>, n: nat, cutoff: int)
    requires Keeps(points, all, n, cutoff)
    requires Sorted(sorted) && multiset(sorted) == multiset(points + more)
    ensures Keeps(Last(sorted, n), all + more, n, cutoff)
  {
    LastSorted(sorted, n);
    forall t | cutoff <= t ensures Above(Last(sorted, n), t) == Min(Above(all + more, t), n) {
      AboveLast(sorted, n, t);
      AbovePermuted(sorted, points + more, t);
      AboveConcat(points, more, t);
      AboveConcat(all, more, t);
    }
  }

  lemma ExpireKeeps(points: seq<Point>, all: seq<Point>, n: nat, cutoff: int, cutoff': int)
    requires Keeps(points, all, n, cutoff) && cutoff <= cutoff'
    ensures IsNewest(After(points, cutoff'), all, n, cutoff')
  {
    NewestCounts(all, n, cutoff');
    AfterSorted(points, cutoff');
    forall t | cutoff' <= t ensures Above(After(points, cutoff'), t) == Above(Newest(all, n, cutoff'), t) {
      AboveAfter(points, cutoff', t);
    }
    CountsDetermine(After(points, cutoff'), Newest(all, n, cutoff'), cutoff');
  }

  /** With distinct time stamps the points themselves are the newest, not only their time stamps. */
  lemma DistinctTimesAreExact(points: seq<Point>, all: seq<Point>, n: nat, cutoff: int)
    requires IsNewest(points, all, n, cutoff)
    requires forall i, j :: 0 <= i < j < |all| ==> all[i].time != all[j].time
    ensures points == Newest(all, n, cutoff)
  {
    var r := Newest(all, n, cutoff);
    NewestCounts(all, n, cutoff);
    forall i | 0 <= i < |points| ensures points[i] == r[i] {
      assert points[i] in multiset(points) && r[i] in multiset(r);
      assert points[i] in all && r[i] in all;
    }
  }

  /** The latest point of a series is never lost while it has not expired, if one point may be kept at all. */
  lemma LatestIsKept(points: seq<Point>, all: seq<Point>, n: nat, cutoff: int, p: Point)
    requires IsNewest(points, all, n, cutoff) && n > 0
    requires p in all && p.time > cutoff && forall q :: q in all ==> q.time <= p.time
    ensures points != [] && points[|points| - 1].time == p.time
  {
    NewestKeeps(points, all, n, cutoff);
    AboveSome(all, p, p.time - 1);
    AboveNone(all, p.time);
    assert Above(points, p.time) == 0 && Above(points, p.time - 1) > 0;
    AboveAt(points, |points| - 1, p.time);
    AboveAt(points, |points| - 1, p.time - 1);
    if points[|points| - 1].time < p.time {
      AboveNone(points, p.time - 1);
    }
  }

  lemma {:induction false} AboveSome(s: seq<Point>, p: Point, t: int)
    requires p in s && p.time > t
    ensures Above(s, t) > 0
  {
    if s[|s| - 1] != p {
      assert s == s[..|s| - 1] + [s[|s| - 1]];
      AboveSome(s[..|s| - 1], p, t);
    }
  }

  // ---------- Queries ----------

  lemma {:induction false} BetweenSameTimes(s: seq<Point>, r: seq<Point>, start: int, end: int)
    requires SameTimes(s, r)
    ensures SameTimes(Between(s, start, end), Between(r, start, end))
  {
    if s != [] { BetweenSameTimes(s[..|s| - 1], r[..|r| - 1], start, end); }
  }

  /** A missing tag reads as the empty string. */
  function Tag(tags: map<string, string>, k: string): string {
    if k in tags then tags[k] else ""
  }

  ghost predicate MatchesTags(series: map<string, string>, query: map<string, string>) {
    forall k :: k in query ==> Tag(series, k) == query[k]
  }

  // ---------- The metrics of one series ----------

  function Of(metrics: seq<Metric>, key: Key): seq<Metric> {
    if metrics == [] then []
    else
      var m := metrics[|metrics| - 1];
      Of(metrics[..|metrics| - 1], key) + if m.key == key then [m] else []
  }

  function Points(metrics: seq<Metric>): seq<Point> {
    seq(|metrics|, i requires 0 <= i < |metrics| => Point(metrics[i].time, metrics[i].value))
  }

  lemma {:induction false} OfConcat(a: seq<Metric>, b: seq<Metric>, key: Key)
    ensures Of(a + b, key) == Of(a, key) + Of(b, key)
  {
    if b == [] {
      assert a + b == a;
    } else {
      assert (a + b)[..|a + b| - 1] == a + b[..|b| - 1];
      OfConcat(a, b[..|b| - 1], key);
    }
  }

  lemma PointsConcat(a: seq<Metric>, b: seq<Metric>)
    ensures Points(a + b) == Points(a) + Points(b)
  {
  }

  // ---------- The store ----------

  /** slices.SortFunc: it promises a sorted permutation, and no order among equal time stamps. */
  method SortByTime(s: seq<Point>) returns (r: seq<Point>)
    ensures Sorted(r) && multiset(r) == multiset(s)
  {
    SortSorted(s);
    r := Sort(s);
  }

  datatype Option<T> = None | Some(value: T)

  function Lookup(series: map<Key, Series>, key: Key): Option<Series> {
    if key in series then Some(series[key]) else None
  }

  /** A series exists once a metric has been stored for it, and has the name and the tags of the first one. */
  ghost predicate Describes(s: Option<Series>, all: seq<Metric>) {
    && (s.Some? <==> all != [])
    && (s.Some? ==> s.value.name == all[0].name && s.value.tags == all[0].tags)
  }

  ghost predicate SeriesOk(s: Option<Series>, all: seq<Metric>, n: nat, cutoff: int) {
    Describes(s, all) && (s.Some? ==> IsNewest(s.value.points, Points(all), n, cutoff))
  }

  /** The same inside Store, before cleanupOldData has run. */
  ghost predicate SeriesFull(s: Option<Series>, all: seq<Metric>, n: nat, cutoff: int) {
    Describes(s, all) && (s.Some? ==> Keeps(s.value.points, Points(all), n, cutoff))
  }

  lemma OkIsFull(s: Option<Series>, all: seq<Metric>, n: nat, cutoff: int)
    requires SeriesOk(s, all, n, cutoff)
    ensures SeriesFull(s, all, n, cutoff)
  {
    if s.Some? { NewestKeeps(s.value.points, Points(all), n, cutoff); }
  }

  /** The part of Store that adds the metrics of one group to their series. */
  method Added(s: Option<Series>, ghost all: seq<Metric>, metrics: seq<Metric>, n: nat, ghost cutoff: int)
    returns (s': Series)
    requires metrics != [] && SeriesFull(s, all, n, cutoff)
    ensures SeriesFull(Some(s'), all + metrics, n, cutoff)
  {
    s' := match s
      case None => Series(metrics[0].name, metrics[0].tags, [])
      case Some(series) => series;
    var points := s'.points;
    assert Keeps(points, Points(all), n, cutoff);
    for i := 0 to |metrics|
      invariant points == s'.points + Points(metrics[..i])
    {
      points := points + [Point(metrics[i].time, metrics[i].value)];
    }
    assert metrics[..|metrics|] == metrics;
    points := SortByTime(points);
    PointsConcat(all, metrics);
    AddKeeps(s'.points, Points(all), Points(metrics), points, n, cutoff);
    if |points| > n {
      points := points[|points| - n..];
    }
    s' := s'.(points := points);
  }

  /** The part of cleanupOldData for one series. */
  method Cleaned(s: Series, ghost all: seq<Metric>, ghost n: nat, ghost cutoff: int, cutoff': int) returns (s': Series)
    requires SeriesFull(Some(s), all, n, cutoff) && cutoff <= cutoff'
    ensures SeriesOk(Some(s'), all, n, cutoff')
  {
    var validPoints := [];
    for i := 0 to |s.points|
      invariant validPoints == After(s.points[..i], cutoff')
    {
      assert s.points[..i + 1][..i] == s.points[..i];
      if s.points[i].time > cutoff' {
        validPoints := validPoints + [s.points[i]];
      }
    }
    assert s.points[..|s.points|] == s.points;
    ExpireKeeps(s.points, Points(all), n, cutoff, cutoff');
    s' := s.(points := validPoints);
  }

  /** The part of Query that selects the points of one series. */
  method InRange(points: seq<Point>, start: int, end: int) returns (r: seq<Point>)
    ensures r == Between(points, start, end)
  {
    r := [];
    for i := 0 to |points|
      invariant r == Between(points[..i], start, end)
    {
      assert points[..i + 1][..i] == points[..i];
      var t := points[i].time;
      if (t > start || t == start) && (t < end || t == end) {
        r := r + [points[i]];
      }
    }
    assert points[..|points|] == points;
  }

  /** Filtering by time keeps exactly the points of the range, each as often as it was there. */
  lemma {:induction false} BetweenIs(s: seq<Point>, start: int, end: int, p: Point)
    ensures multiset(Between(s, start, end))[p] == if start <= p.time <= end then multiset(s)[p] else 0
  {
    if s != [] {
      assert s == s[..|s| - 1] + [s[|s| - 1]];
      BetweenIs(s[..|s| - 1], start, end, p);
    }
  }

  lemma {:induction false} BetweenNoneLater(s: seq<Point>, start: int, end: int, time: int)
    requires NoneLater(s, time)
    ensures NoneLater(Between(s, start, end), time)
  {
    if s != [] {
      var init, last := s[..|s| - 1], s[|s| - 1];
      BetweenNoneLater(init, start, end, time);
      assert Between(init, start, end) + [] == Between(init, start, end);
      NoneLaterSnoc(Between(init, start, end), last, time);
    }
  }

  lemma {:induction false} BetweenSorted(s: seq<Point>, start: int, end: int)
    requires Sorted(s)
    ensures Sorted(Between(s, start, end))
  {
    hide Sorted, NoneLater;
    if s != [] {
      var init, last := s[..|s| - 1], s[|s| - 1];
      assert s == init + [last];
      SortedSnoc(init, last);
      BetweenSorted(init, start, end);
      BetweenNoneLater(init, start, end, last.time);
      SortedSnoc(Between(init, start, end), last);
      assert Between(init, start, end) + [] == Between(init, start, end);
    }
  }

  /** The points of the range, each as often as in the series, in the order of time. */
  ghost predicate IsRange(points: seq<Point>, start: int, end: int, r: seq<Point>) {
    && (forall p: Point :: multiset(r)[p] == if start <= p.time <= end then multiset(points)[p] else 0)
    && (Sorted(points) ==> Sorted(r))
  }

  lemma BetweenIsRange(points: seq<Point>, start: int, end: int)
    ensures IsRange(points, start, end, Between(points, start, end))
    ensures Between(points, start, end) != [] <==> exists i :: 0 <= i < |points| && start <= points[i].time <= end
  {
    hide Between, Sorted;
    var r := Between(points, start, end);
    forall p: Point ensures multiset(r)[p] == if start <= p.time <= end then multiset(points)[p] else 0 {
      BetweenIs(points, start, end, p);
    }
    if Sorted(points) { BetweenSorted(points, start, end); }
    if r != [] {
      assert r[0] in multiset(r);
      assert multiset(points)[r[0]] > 0;
      assert r[0] in points;
    }
    if i :| 0 <= i < |points| && start <= points[i].time <= end {
      assert points[i] in multiset(points);
      assert multiset(r)[points[i]] > 0;
    }
  }

  /** The name, every queried tag, a missing one read as empty, and some point of the range. */
  lemma MatchesIff(series: Series, name: string, tags: map<string, string>, start: int, end: int)
    ensures Matches(series, name, tags, start, end) <==>
      && series.name == name
      && (forall k :: k in tags ==> (if k in series.tags then series.tags[k] == tags[k] else tags[k] == ""))
      && exists i :: 0 <= i < |series.points| && start <= series.points[i].time <= end
  {
    BetweenIsRange(series.points, start, end);
    hide Between, IsRange;
  }

  ghost predicate Matches(series: Series, name: string, tags: map<string, string>, start: int, end: int) {
    && series.name == name
    && MatchesTags(series.tags, tags)
    && Between(series.points, start, end) != []
  }

  // ---------- The two loops of Store, over the series ----------

  /** The series of `todo` have not yet received their part of the batch. */
  ghost predicate Adding(
    table: map<Key, Series>, todo: set<Key>, before: seq<Metric>, stored: seq<Metric>, n: nat, cutoff: int)
  {
    forall key :: SeriesFull(Lookup(table, key), Of(if key in todo then before else stored, key), n, cutoff)
  }

  lemma AddStep(
    table: map<Key, Series>, todo: set<Key>, key: Key, s: Series, before: seq<Metric>, stored: seq<Metric>, n: nat, cutoff: int)
    requires Adding(table, todo, before, stored, n, cutoff)
    requires SeriesFull(Some(s), Of(stored, key), n, cutoff)
    ensures Adding(table[key := s], todo - {key}, before, stored, n, cutoff)
  {
    hide SeriesFull, Of;
    forall k ensures SeriesFull(Lookup(table[key := s], k), Of(if k in todo - {key} then before else stored, k), n, cutoff) {
      assert SeriesFull(Lookup(table, k), Of(if k in todo then before else stored, k), n, cutoff);
    }
  }

  /** The series of `todo` have not yet been cleaned. */
  ghost predicate Cleaning(table: map<Key, Series>, todo: set<Key>, stored: seq<Metric>, n: nat, cutoff: int, cutoff': int) {
    forall key ::
      if key in todo then SeriesFull(Lookup(table, key), Of(stored, key), n, cutoff)
      else SeriesOk(Lookup(table, key), Of(stored, key), n, cutoff')
  }

  lemma CleanStep(
    table: map<Key, Series>, todo: set<Key>, key: Key, s: Series, stored: seq<Metric>, n: nat, cutoff: int, cutoff': int)
    requires Cleaning(table, todo, stored, n, cutoff, cutoff')
    requires SeriesOk(Some(s), Of(stored, key), n, cutoff')
    ensures Cleaning(table[key := s], todo - {key}, stored, n, cutoff, cutoff')
  {
    hide SeriesFull, SeriesOk, Of;
  }

  lemma StartAdding(table: map<Key, Series>, todo: set<Key>, before: seq<Metric>, batch: seq<Metric>, n: nat, cutoff: int)
    requires forall key :: SeriesOk(Lookup(table, key), Of(before, key), n, cutoff)
    requires forall key :: key in todo <==> Of(batch, key) != []
    ensures Adding(table, todo, before, before + batch, n, cutoff)
  {
    hide SeriesOk, SeriesFull, Of;
    forall key ensures SeriesFull(Lookup(table, key), Of(if key in todo then before else before + batch, key), n, cutoff) {
      assert SeriesOk(Lookup(table, key), Of(before, key), n, cutoff);
      OkIsFull(Lookup(table, key), Of(before, key), n, cutoff);
      OfConcat(before, batch, key);
      if key !in todo { assert Of(before + batch, key) == Of(before, key); }
    }
  }

  lemma StartCleaning(table: map<Key, Series>, stored: seq<Metric>, n: nat, cutoff: int, cutoff': int)
    requires forall key :: SeriesFull(Lookup(table, key), Of(stored, key), n, cutoff)
    ensures Cleaning(table, table.Keys, stored, n, cutoff, cutoff')
  {
    forall key | key !in table ensures SeriesOk(Lookup(table, key), Of(stored, key), n, cutoff') {
      assert SeriesFull(Lookup(table, key), Of(stored, key), n, cutoff);
    }
  }

  /**
   * `stored` is every metric ever passed to Store, and `cutoff` the bound of the last cleanup.
   */
  class TimeSeriesStore {
    const maxDataPoints: nat
    const retentionPeriod: int
    var series: map<Key, Series>
    ghost var stored: seq<Metric>
    ghost var cutoff: int

    /** Each series is the newest `maxDataPoints` of all points ever stored for it, less the expired ones. */
    ghost predicate Valid()
      reads this
    {
      forall key :: SeriesOk(Lookup(series, key), Of(stored, key), maxDataPoints, cutoff)
    }

    constructor (maxDataPoints: nat, retentionPeriod: int, ghost now: int)
      ensures Valid() && stored == [] && cutoff == now - retentionPeriod
      ensures this.maxDataPoints == maxDataPoints && this.retentionPeriod == retentionPeriod
    {
      this.maxDataPoints, this.retentionPeriod := maxDataPoints, retentionPeriod;
      series := map[];
      stored, cutoff := [], now - retentionPeriod;
    }

    /** Store, at a time `now` that is not before that of the previous call. */
    method Store(metrics: seq<Metric>, now: int)
      requires Valid() && cutoff <= now - retentionPeriod
      modifies this
      ensures Valid()
      ensures stored == old(stored) + metrics && cutoff == now - retentionPeriod
    {
      var groups := Group(metrics);
      var keys := groups.Keys;
      stored := stored + metrics;
      StartAdding(series, keys, old(stored), metrics, maxDataPoints, cutoff);
      while keys != {}
        invariant keys <= groups.Keys
        invariant stored == old(stored) + metrics && cutoff == old(cutoff)
        invariant Adding(series, keys, old(stored), stored, maxDataPoints, cutoff)
        decreases |keys|
      {
        var key :| key in keys;
        assert SeriesFull(Lookup(series, key), Of(old(stored), key), maxDataPoints, cutoff);
        hide Adding, SeriesFull;
        OfConcat(old(stored), metrics, key);
        var s := Added(Lookup(series, key), Of(old(stored), key), groups[key], maxDataPoints, cutoff);
        AddStep(series, keys, key, s, old(stored), stored, maxDataPoints, cutoff);
        series := series[key := s];
        keys := keys - {key};
      }
      CleanupOldData(now);
    }

    static method Group(metrics: seq<Metric>) returns (groups: map<Key, seq<Metric>>)
      ensures forall key :: key in groups <==> Of(metrics, key) != []
      ensures forall key :: key in groups ==> groups[key] == Of(metrics, key)
    {
      groups := map[];
      for i := 0 to |metrics|
        invariant forall key :: key in groups <==> Of(metrics[..i], key) != []
        invariant forall key :: key in groups ==> groups[key] == Of(metrics[..i], key)
      {
        var m := metrics[i];
        assert metrics[..i + 1][..i] == metrics[..i];
        groups := groups[m.key := (if m.key in groups then groups[m.key] else []) + [m]];
      }
      assert metrics[..|metrics|] == metrics;
    }

    method CleanupOldData(now: int)
      requires cutoff <= now - retentionPeriod
      requires forall key :: SeriesFull(Lookup(series, key), Of(stored, key), maxDataPoints, cutoff)
      modifies this
      ensures Valid() && stored == old(stored) && cutoff == now - retentionPeriod
    {
      hide SeriesFull, SeriesOk, Of;
      var keys := series.Keys;
      StartCleaning(series, stored, maxDataPoints, cutoff, now - retentionPeriod);
      while keys != {}
        invariant keys <= series.Keys
        invariant stored == old(stored) && cutoff == old(cutoff)
        invariant Cleaning(series, keys, stored, maxDataPoints, cutoff, now - retentionPeriod)
        decreases |keys|
      {
        var key :| key in keys;
        assert SeriesFull(Lookup(series, key), Of(stored, key), maxDataPoints, cutoff);
        hide Cleaning;
        var s := Cleaned(series[key], Of(stored, key), maxDataPoints, cutoff, now - retentionPeriod);
        CleanStep(series, keys, key, s, stored, maxDataPoints, cutoff, now - retentionPeriod);
        series := series[key := s];
        keys := keys - {key};
      }
      cutoff := now - retentionPeriod;
    }

    /**
     * Query: one result for every matching series, made of its points in the time range. `keys` are their keys, in the
     * order in which they were visited.
     */
    method Query(name: string, tags: map<string, string>, start: int, end: int)
      returns (result: seq<Series>, ghost keys: seq<Key>)
      requires Valid()
      ensures |keys| == |result|
      ensures forall i, j :: 0 <= i < j < |keys| ==> keys[i] != keys[j]
      ensures forall key :: key in keys <==> key in series && Matches(series[key], name, tags, start, end)
      ensures forall i :: 0 <= i < |result| ==> Answers(keys[i], result[i], start, end)
    {
      hide SeriesOk, IsNewest, Newest, Of, Between;
      result, keys := [], [];
      var todo := series.Keys;
      while todo != {}
        invariant todo <= series.Keys
        invariant |keys| == |result|
        invariant forall i, j :: 0 <= i < j < |keys| ==> keys[i] != keys[j]
        invariant forall key :: key in keys <==> key in series && key !in todo && Matches(series[key], name, tags, start, end)
        invariant forall i :: 0 <= i < |result| ==> Answers(keys[i], result[i], start, end)
        decreases |todo|
      {
        var key :| key in todo;
        todo := todo - {key};
        var s := series[key];
        var matches := MatchTags(s.tags, tags);
        if s.name != name || !matches {
          continue;
        }
        var points := InRange(s.points, start, end);
        if |points| > 0 {
          Answered(key, start, end);
          result := result + [s.(points := points)];
          keys := keys + [key];
        }
      }
    }

    /** A series has the name and the tags of the first metric that was stored under its key. */
    lemma SeriesIsNamed(key: Key)
      requires Valid() && key in series
      ensures var all := Of(stored, key);
        all != [] && series[key].name == all[0].name && series[key].tags == all[0].tags
    {
      assert SeriesOk(Lookup(series, key), Of(stored, key), maxDataPoints, cutoff);
      hide IsNewest, Of;
    }

    /**
     * What Query selects of a series are its points of the range, and they have the time stamps that the same filter gives
     * on the newest points.
     */
    ghost predicate Answers(key: Key, r: Series, start: int, end: int)
      reads this
    {
      && key in series && r == series[key].(points := r.points) && IsRange(series[key].points, start, end, r.points)
      && SameTimes(r.points, Between(Newest(Points(Of(stored, key)), maxDataPoints, cutoff), start, end))
    }

    lemma Answered(key: Key, start: int, end: int)
      requires Valid() && key in series
      ensures Answers(key, series[key].(points := Between(series[key].points, start, end)), start, end)
    {
      assert SeriesOk(Lookup(series, key), Of(stored, key), maxDataPoints, cutoff);
      BetweenIsRange(series[key].points, start, end);
      BetweenSameTimes(series[key].points, Newest(Points(Of(stored, key)), maxDataPoints, cutoff), start, end);
    }

    static method MatchTags(seriesTags: map<string, string>, queryTags: map<string, string>) returns (ok: bool)
      ensures ok <==> MatchesTags(seriesTags, queryTags)
      ensures ok <==>
        forall k :: k in queryTags ==> (if k in seriesTags then seriesTags[k] == queryTags[k] else queryTags[k] == "")
    {
      var todo := queryTags.Keys;
      while todo != {}
        invariant todo <= queryTags.Keys
        invariant forall k :: k in queryTags && k !in todo ==> Tag(seriesTags, k) == queryTags[k]
        decreases |todo|
      {
        var k :| k in todo;
        if Tag(seriesTags, k) != queryTags[k] { return false; }
        todo := todo - {k};
      }
      return true;
    }
  }
}

/**
 * The job rows the worst-query SQL returns and the ordering the audit ranks
 * them by (main-app/src/main.py, the `sorted(..., reverse=True)` calls).
 *
 * Python's `sorted` is stable also with `reverse=True`: jobs with equal keys
 * keep their input order. `SortDesc` is that sort, written as an insertion
 * sort; `Position` is an independent description of where each job lands,
 * and `SortPlacesAtPosition`/`PositionOrder` tie the two together.
 */
module Jobs {
  import opened Wrappers
  import Schema

  /** One row of the worst-query result set. */
  datatype Job = Job(
    jobId: string,
    query: string,
    regionName: string,
    billedGb: Option<real>,
    durationSeconds: Option<int>,
    slotHours: Option<real>,
    sourceType: string,
    difficulty: string,
    referencedTables: seq<Schema.TableRef>)

  /** The two orderings of the audit: scanned volume and run time. */
  datatype Metric = BilledGb | Duration

  /** The sort key: `x.billed_gb or 0.0` or `x.duration_seconds or 0` (a missing value counts as 0). */
  function Key(j: Job, m: Metric): real {
    match m
    case BilledGb => j.billedGb.GetOr(0.0)
    case Duration => j.durationSeconds.GetOr(0) as real
  }

  /** `x` goes in front of the first element whose key is not greater than its own. */
  function Insert(x: Job, t: seq<Job>, m: Metric): (r: seq<Job>)
    ensures |r| == |t| + 1 && multiset(r) == multiset{x} + multiset(t)
  {
    if t == [] || Key(t[0], m) <= Key(x, m) then [x] + t
    else
      assert t == [t[0]] + t[1..];
      [t[0]] + Insert(x, t[1..], m)
  }

  /** `sorted(s, key=Key(., m), reverse=True)`. */
  function SortDesc(s: seq<Job>, m: Metric): (r: seq<Job>)
    ensures |r| == |s| && multiset(r) == multiset(s)
  {
    if s == [] then [] else
      assert s == [s[0]] + s[1..];
      Insert(s[0], SortDesc(s[1..], m), m)
  }

  predicate Descending(t: seq<Job>, m: Metric) {
    forall a, b :: 0 <= a < b < |t| ==> Key(t[a], m) >= Key(t[b], m)
  }

  /** Does `j` count against key `v`: tying with it (`tie`) or strictly above it. */
  predicate Counts(j: Job, m: Metric, v: real, tie: bool) {
    if tie then Key(j, m) == v else Key(j, m) > v
  }

  function Count(s: seq<Job>, m: Metric, v: real, tie: bool): nat {
    if s == [] then 0 else (if Counts(s[0], m, v, tie) then 1 else 0) + Count(s[1..], m, v, tie)
  }

  /** Number of jobs ranking strictly above key `v`. */
  function Above(s: seq<Job>, m: Metric, v: real): nat {
    Count(s, m, v, false)
  }

  /** Number of jobs tying with key `v`. */
  function Level(s: seq<Job>, m: Metric, v: real): nat {
    Count(s, m, v, true)
  }

  /**
   * Where `s[i]` lands in the stable descending order: after every job with a
   * greater key and after the jobs with an equal key that precede it.
   */
  function Position(s: seq<Job>, m: Metric, i: nat): nat
    requires i < |s|
  {
    Above(s, m, Key(s[i], m)) + Level(s[..i], m, Key(s[i], m))
  }

  // ---------------------------------------------------------------------
  // Counting

  lemma {:induction false} CountConcat(a: seq<Job>, b: seq<Job>, m: Metric, v: real, tie: bool)
    ensures Count(a + b, m, v, tie) == Count(a, m, v, tie) + Count(b, m, v, tie)
  {
    if a != [] {
      assert (a + b)[0] == a[0] && (a + b)[1..] == a[1..] + b;
      CountConcat(a[1..], b, m, v, tie);
    } else {
      assert a + b == b;
    }
  }

  lemma {:induction false} CountInsert(x: Job, t: seq<Job>, k: Metric, m: Metric, v: real, tie: bool)
    ensures Count(Insert(x, t, k), m, v, tie) == Count([x], m, v, tie) + Count(t, m, v, tie)
  {
    if t == [] || Key(t[0], k) <= Key(x, k) {
      CountConcat([x], t, m, v, tie);
    } else {
      CountInsert(x, t[1..], k, m, v, tie);
      assert Insert(x, t, k)[1..] == Insert(x, t[1..], k);
    }
  }

  /** Sorting by `k` does not change how many jobs count against any key. */
  lemma {:induction false} CountSort(s: seq<Job>, k: Metric, m: Metric, v: real, tie: bool)
    ensures Count(SortDesc(s, k), m, v, tie) == Count(s, m, v, tie)
  {
    if s != [] {
      CountSort(s[1..], k, m, v, tie);
      CountInsert(s[0], SortDesc(s[1..], k), k, m, v, tie);
    }
  }

  /** Every job with key `u` or above lies strictly above a smaller key `v`. */
  lemma {:induction false} AboveMonotone(s: seq<Job>, m: Metric, u: real, v: real)
    requires v < u
    ensures Above(s, m, v) >= Above(s, m, u) + Level(s, m, u)
  {
    if s != [] {
      AboveMonotone(s[1..], m, u, v);
    }
  }

  /** A tying job at index `i` is counted by every prefix longer than `i`. */
  lemma LevelGrows(s: seq<Job>, m: Metric, i: nat, j: nat)
    requires i < j <= |s|
    ensures Level(s[..j], m, Key(s[i], m)) >= Level(s[..i], m, Key(s[i], m)) + 1
  {
    var v := Key(s[i], m);
    assert s[..j] == s[..i] + s[i..j];
    CountConcat(s[..i], s[i..j], m, v, true);
    assert s[i..j][0] == s[i];
  }

  // ---------------------------------------------------------------------
  // The sort is ordered and a permutation

  lemma {:induction false} InsertDescending(x: Job, t: seq<Job>, m: Metric)
    requires Descending(t, m)
    ensures Descending(Insert(x, t, m), m)
    ensures Insert(x, t, m)[0] == x || (t != [] && Insert(x, t, m)[0] == t[0])
  {
    if t == [] || Key(t[0], m) <= Key(x, m) {
    } else {
      var r := Insert(x, t[1..], m);
      InsertDescending(x, t[1..], m);
      forall b | 0 < b < |r| + 1
        ensures Key(t[0], m) >= Key(([t[0]] + r)[b], m)
      {
        assert ([t[0]] + r)[b] == r[b - 1];
        if r[0] != x {
          assert r[0] == t[1];
          assert Key(r[0], m) >= Key(r[b - 1], m) || b - 1 == 0;
        }
      }
    }
  }

  /** `SortDesc` orders by descending key (that it only reorders is part of its contract). */
  lemma {:induction false} SortDescDescending(s: seq<Job>, m: Metric)
    ensures Descending(SortDesc(s, m), m)
  {
    if s != [] {
      SortDescDescending(s[1..], m);
      InsertDescending(s[0], SortDesc(s[1..], m), m);
    }
  }

  // ---------------------------------------------------------------------
  // The sort puts every job at its `Position`

  /** Inserting `x` moves the jobs not above its key down by one place. */
  lemma {:induction false} InsertShift(x: Job, t: seq<Job>, m: Metric, k: nat)
    requires k < |t| && Descending(t, m)
    ensures |Insert(x, t, m)| == |t| + 1
    ensures Key(t[k], m) > Key(x, m) ==> Insert(x, t, m)[k] == t[k]
    ensures Key(t[k], m) <= Key(x, m) ==> Insert(x, t, m)[k + 1] == t[k]
  {
    if Key(t[0], m) <= Key(x, m) {
      assert k == 0 || Key(t[0], m) >= Key(t[k], m);
      assert Insert(x, t, m) == [x] + t;
    } else if k > 0 {
      DescendingTail(t, m);
      InsertShift(x, t[1..], m, k - 1);
      assert Insert(x, t, m) == [t[0]] + Insert(x, t[1..], m);
      assert t[1..][k - 1] == t[k];
    }
  }

  lemma DescendingTail(t: seq<Job>, m: Metric)
    requires t != [] && Descending(t, m)
    ensures Descending(t[1..], m)
  {
    forall a, b | 0 <= a < b < |t| - 1 ensures Key(t[1..][a], m) >= Key(t[1..][b], m) {
      assert t[1..][a] == t[a + 1] && t[1..][b] == t[b + 1];
    }
  }

  /** In a descending sequence whose head is not above `v`, nothing is. */
  lemma {:induction false} AboveNone(t: seq<Job>, m: Metric, v: real)
    requires Descending(t, m)
    requires t == [] || Key(t[0], m) <= v
    ensures Above(t, m, v) == 0
  {
    if t != [] {
      assert t[1..] == [] || Key(t[1..][0], m) <= Key(t[0], m);
      AboveNone(t[1..], m, v);
    }
  }

  /** `x` itself lands after exactly the jobs ranking strictly above it. */
  lemma {:induction false} InsertPlacesNew(x: Job, t: seq<Job>, m: Metric)
    requires Descending(t, m)
    ensures Above(t, m, Key(x, m)) < |Insert(x, t, m)|
    ensures Insert(x, t, m)[Above(t, m, Key(x, m))] == x
  {
    InsertDescending(x, t, m);
    if t == [] || Key(t[0], m) <= Key(x, m) {
      AboveNone(t, m, Key(x, m));
    } else {
      InsertPlacesNew(x, t[1..], m);
      assert Insert(x, t, m) == [t[0]] + Insert(x, t[1..], m);
    }
  }

  /** The head of the input lands after the jobs ranking strictly above it. */
  lemma PlaceHead(s: seq<Job>, m: Metric)
    requires |s| > 0
    ensures Position(s, m, 0) < |s|
    ensures SortDesc(s, m)[Position(s, m, 0)] == s[0]
  {
    var t := SortDesc(s[1..], m);
    var v := Key(s[0], m);
    SortDescDescending(s[1..], m);
    CountSort(s[1..], m, m, v, false);
    assert s == [s[0]] + s[1..];
    CountConcat([s[0]], s[1..], m, v, false);
    assert Position(s, m, 0) == Above(t, m, v);
    InsertPlacesNew(s[0], t, m);
  }

  /** A later job keeps its place among the others, moved down when the head does not rank above it. */
  lemma PlaceTail(s: seq<Job>, m: Metric, i: nat)
    requires 0 < i < |s|
    requires Position(s[1..], m, i - 1) < |s| - 1
    requires SortDesc(s[1..], m)[Position(s[1..], m, i - 1)] == s[i]
    ensures Position(s, m, i) < |s|
    ensures SortDesc(s, m)[Position(s, m, i)] == s[i]
  {
    var r := s[1..];
    var t := SortDesc(r, m);
    var p := Position(r, m, i - 1);
    SortDescDescending(r, m);
    PositionTail(s, m, i);
    InsertShift(s[0], t, m, p);
  }

  /** Moving past the first job shifts a later job's place by one exactly when the first does not rank below it. */
  lemma PositionTail(s: seq<Job>, m: Metric, i: nat)
    requires 0 < i < |s|
    ensures Position(s, m, i) == Position(s[1..], m, i - 1) + (if Key(s[0], m) < Key(s[i], m) then 0 else 1)
  {
    var r := s[1..];
    var v := Key(s[i], m);
    assert r[i - 1] == s[i];
    assert s == [s[0]] + r;
    CountConcat([s[0]], r, m, v, false);
    assert s[..i] == [s[0]] + r[..i - 1];
    CountConcat([s[0]], r[..i - 1], m, v, true);
  }

  /** The sorted output holds `s[i]` at index `Position(s, m, i)`. */
  lemma {:induction false} SortPlacesAtPosition(s: seq<Job>, m: Metric, i: nat)
    requires i < |s|
    ensures Position(s, m, i) < |s|
    ensures SortDesc(s, m)[Position(s, m, i)] == s[i]
  {
    if i == 0 {
      PlaceHead(s, m);
    } else {
      SortPlacesAtPosition(s[1..], m, i - 1);
      PlaceTail(s, m, i);
    }
  }

  /**
   * `s[i]` comes before `s[j]` in the sorted output exactly when its key is
   * greater, or the keys tie and `s[i]` came first in the input: the sort is
   * descending and stable.
   */
  lemma PositionOrder(s: seq<Job>, m: Metric, i: nat, j: nat)
    requires i < |s| && j < |s| && i != j
    ensures Position(s, m, i) < Position(s, m, j) <==>
      Key(s[i], m) > Key(s[j], m) || (Key(s[i], m) == Key(s[j], m) && i < j)
  {
    if Key(s[i], m) > Key(s[j], m) || (Key(s[i], m) == Key(s[j], m) && i < j) {
      PositionBefore(s, m, i, j);
    } else {
      PositionBefore(s, m, j, i);
    }
  }

  lemma PositionBefore(s: seq<Job>, m: Metric, i: nat, j: nat)
    requires i < |s| && j < |s| && i != j
    requires Key(s[i], m) > Key(s[j], m) || (Key(s[i], m) == Key(s[j], m) && i < j)
    ensures Position(s, m, i) < Position(s, m, j)
  {
    var u := Key(s[i], m);
    if u > Key(s[j], m) {
      AboveMonotone(s, m, u, Key(s[j], m));
      LevelGrows(s, m, i, |s|);
      assert s[..|s|] == s;
    } else {
      LevelGrows(s, m, i, j);
    }
  }
}

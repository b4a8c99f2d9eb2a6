/**
 * Project-wide ranks and the selection of worst queries
 * (main-app/src/main.py, step 2 of `main`).
 *
 * `ComputeRanks` fills the `job_ranks` dictionary from the two sorted
 * lists; `SelectWorst` merges the top `limit` jobs of each ordering into an
 * insertion-ordered dictionary keyed by `job_id`. Python's dictionary is
 * modelled as its insertion order (`order`) beside its contents (`table`).
 */
module Ranking {
  import opened Wrappers
  import opened Jobs

  /** A job's entry in `job_ranks`: its 1-based place in each ordering, when recorded. */
  datatype RankEntry = RankEntry(costRank: Option<nat>, durationRank: Option<nat>)

  function IdSet(s: seq<Job>): set<string> {
    set j | j in s :: j.jobId
  }

  function Ids(s: seq<Job>): (r: seq<string>)
    ensures |r| == |s| && forall i :: 0 <= i < |s| ==> r[i] == s[i].jobId
  {
    seq(|s|, i requires 0 <= i < |s| => s[i].jobId)
  }

  predicate UniqueIds(s: seq<Job>) {
    forall a, b :: 0 <= a < b < |s| ==> s[a].jobId != s[b].jobId
  }

  /**
   * The 1-based place of the last job in `t` carrying `id`. This is the rank
   * `enumerate(t, 1)` leaves in `job_ranks` (a later occurrence overwrites an
   * earlier one) and, in the merge loop, the entry the dictionary keeps.
   */
  function LastPlace(t: seq<Job>, id: string): Option<nat> {
    if t == [] then None
    else if t[|t| - 1].jobId == id then Some(|t|)
    else LastPlace(t[..|t| - 1], id)
  }

  // ---------------------------------------------------------------------
  // The rank map

  /** `job_ranks` as a value: each id's last place in either ordering. */
  function RankMap(allJobs: seq<Job>): map<string, RankEntry> {
    map id | id in IdSet(allJobs) :: RankEntry(LastPlace(SortDesc(allJobs, BilledGb), id), LastPlace(SortDesc(allJobs, Duration), id))
  }

  /** The two loops that fill `job_ranks` from the merged job list. */
  method ComputeRanks(allJobs: seq<Job>) returns (ranks: map<string, RankEntry>)
    ensures ranks == RankMap(allJobs)
  {
    var byCost := SortDesc(allJobs, BilledGb);
    var byDuration := SortDesc(allJobs, Duration);
    ranks := RecordCostRanks(byCost);
    IdSetOfPermutation(byCost, allJobs);
    IdSetOfPermutation(byDuration, allJobs);
    ranks := RecordDurationRanks(ranks, byDuration);
  }

  /** The first loop: every id gets an entry holding its place by cost. */
  method RecordCostRanks(byCost: seq<Job>) returns (ranks: map<string, RankEntry>)
    ensures ranks.Keys == IdSet(byCost)
    ensures forall id :: id in ranks ==> ranks[id] == RankEntry(LastPlace(byCost, id), None)
  {
    ranks := map[];
    for k := 0 to |byCost|
      invariant ranks.Keys == IdSet(byCost[..k])
      invariant forall id :: id in ranks ==> ranks[id] == RankEntry(LastPlace(byCost[..k], id), None)
    {
      var j := byCost[k];
      PlaceSnoc(byCost, k);
      if j.jobId !in ranks {
        ranks := ranks[j.jobId := RankEntry(None, None)];
      }
      ranks := ranks[j.jobId := ranks[j.jobId].(costRank := Some(k + 1))];
    }
    assert byCost[..|byCost|] == byCost;
  }

  /** The second loop: each entry receives its place by duration. */
  method RecordDurationRanks(ranks0: map<string, RankEntry>, byDuration: seq<Job>) returns (ranks: map<string, RankEntry>)
    requires IdSet(byDuration) <= ranks0.Keys
    requires forall id :: id in ranks0 ==> ranks0[id].durationRank.None?
    ensures ranks.Keys == ranks0.Keys
    ensures forall id :: id in ranks ==> ranks[id] == ranks0[id].(durationRank := LastPlace(byDuration, id))
  {
    ranks := ranks0;
    for k := 0 to |byDuration|
      invariant ranks.Keys == ranks0.Keys
      invariant forall id :: id in ranks ==> ranks[id] == ranks0[id].(durationRank := LastPlace(byDuration[..k], id))
    {
      var j := byDuration[k];
      PlaceSnoc(byDuration, k);
      ranks := ranks[j.jobId := ranks[j.jobId].(durationRank := Some(k + 1))];
    }
    assert byDuration[..|byDuration|] == byDuration;
  }

  /** One more element: its id joins the set and takes the last place. */
  lemma PlaceSnoc(t: seq<Job>, k: nat)
    requires k < |t|
    ensures IdSet(t[..k + 1]) == IdSet(t[..k]) + {t[k].jobId}
    ensures forall id :: LastPlace(t[..k + 1], id) == if t[k].jobId == id then Some(k + 1) else LastPlace(t[..k], id)
  {
    var w := t[..k + 1];
    assert w == t[..k] + [t[k]];
    assert w[..|w| - 1] == t[..k] && w[|w| - 1] == t[k];
    forall id ensures LastPlace(w, id) == if t[k].jobId == id then Some(k + 1) else LastPlace(t[..k], id) {
    }
  }

  /**
   * Every job id of the merged list is recorded with both ranks, each in
   * 1..N for N merged jobs, and no other id is recorded.
   */
  lemma RanksRecorded(allJobs: seq<Job>, id: string)
    ensures id in RankMap(allJobs) <==> id in IdSet(allJobs)
    ensures id in RankMap(allJobs) ==>
      var e := RankMap(allJobs)[id];
      e.costRank.Some? && e.durationRank.Some? &&
      1 <= e.costRank.value <= |allJobs| && 1 <= e.durationRank.value <= |allJobs|
  {
    if id in IdSet(allJobs) {
      var byCost := SortDesc(allJobs, BilledGb);
      var byDuration := SortDesc(allJobs, Duration);
      IdSetOfPermutation(byCost, allJobs);
      IdSetOfPermutation(byDuration, allJobs);
      LastPlaceFacts(byCost, id);
      LastPlaceFacts(byDuration, id);
    }
  }

  lemma IdSetOfPermutation(a: seq<Job>, b: seq<Job>)
    requires multiset(a) == multiset(b)
    ensures IdSet(a) == IdSet(b)
  {
    forall j | j in a ensures j in b {
      assert j in multiset(a);
    }
    forall j | j in b ensures j in a {
      assert j in multiset(b);
    }
  }

  /**
   * `LastPlace` is the 1-based index of the last occurrence of `id`: it exists
   * exactly when `id` occurs, and no later element carries `id`.
   */
  lemma {:induction false} LastPlaceFacts(t: seq<Job>, id: string)
    ensures LastPlace(t, id).Some? <==> id in IdSet(t)
    ensures LastPlace(t, id).Some? ==>
      var r := LastPlace(t, id).value;
      1 <= r <= |t| && t[r - 1].jobId == id && forall k :: r <= k < |t| ==> t[k].jobId != id
  {
    if t != [] {
      var init := t[..|t| - 1];
      LastPlaceFacts(init, id);
      assert t == init + [t[|t| - 1]];
      if t[|t| - 1].jobId != id {
        if id in IdSet(t) {
          var j :| j in t && j.jobId == id;
          assert j in init;
        }
      }
    }
  }

  /** A position holding `id` with no later occurrence is the rank of `id`. */
  lemma LastPlaceAt(t: seq<Job>, id: string, p: nat)
    requires p < |t| && t[p].jobId == id
    requires forall k :: p < k < |t| ==> t[k].jobId != id
    ensures LastPlace(t, id) == Some(p + 1)
  {
    LastPlaceFacts(t, id);
    assert t[p] in t;
  }

  /**
   * Every job of the merged list gets both ranks, each between 1 and the
   * length of the merged list; the rank is never that of an earlier
   * occurrence of a repeated id (later writes win).
   */
  lemma RanksInRange(s: seq<Job>, m: Metric, i: nat)
    requires i < |s|
    ensures LastPlace(SortDesc(s, m), s[i].jobId).Some?
    ensures 1 <= LastPlace(SortDesc(s, m), s[i].jobId).value <= |s|
    ensures LastPlace(SortDesc(s, m), s[i].jobId).value >= Position(s, m, i) + 1
  {
    var t := SortDesc(s, m);
    var id := s[i].jobId;
    SortPlacesAtPosition(s, m, i);
    var p := Position(s, m, i);
    assert t[p] in t;
    LastPlaceFacts(t, id);
  }

  lemma {:induction false} InsertKeepsUnique(x: Job, t: seq<Job>, m: Metric)
    requires UniqueIds(t) && x.jobId !in IdSet(t)
    ensures UniqueIds(Insert(x, t, m))
  {
    if t == [] || Key(t[0], m) <= Key(x, m) {
      forall b | 0 <= b < |t| ensures t[b].jobId != x.jobId {
        assert t[b] in t;
      }
    } else {
      forall j | j in t[1..] ensures j in t { }
      InsertKeepsUnique(x, t[1..], m);
      var r := Insert(x, t[1..], m);
      forall b | 0 <= b < |r| ensures r[b].jobId != t[0].jobId {
        assert r[b] in multiset(r);
        assert r[b] == x || r[b] in multiset(t[1..]);
        if r[b] != x {
          var c :| 0 <= c < |t[1..]| && t[1..][c] == r[b];
          assert t[c + 1] == r[b];
        }
      }
    }
  }

  /** Sorting keeps ids unique. */
  lemma {:induction false} SortKeepsUnique(s: seq<Job>, m: Metric)
    requires UniqueIds(s)
    ensures UniqueIds(SortDesc(s, m))
  {
    if s != [] {
      SortKeepsUnique(s[1..], m);
      IdSetOfPermutation(SortDesc(s[1..], m), s[1..]);
      forall j | j in s[1..] ensures j.jobId != s[0].jobId {
        var c :| 0 <= c < |s[1..]| && s[1..][c] == j;
        assert s[c + 1] == j;
      }
      InsertKeepsUnique(s[0], SortDesc(s[1..], m), m);
    }
  }

  /** With unique ids, a job's rank is its place in the stable descending order, plus one. */
  lemma RankIsPosition(s: seq<Job>, m: Metric, i: nat)
    requires UniqueIds(s) && i < |s|
    ensures LastPlace(SortDesc(s, m), s[i].jobId) == Some(Position(s, m, i) + 1)
  {
    SortPlacesAtPosition(s, m, i);
    SortKeepsUnique(s, m);
    LastPlaceUnique(SortDesc(s, m), Position(s, m, i));
  }

  lemma LastPlaceUnique(t: seq<Job>, p: nat)
    requires UniqueIds(t) && p < |t|
    ensures LastPlace(t, t[p].jobId) == Some(p + 1)
  {
    assert forall k :: p < k < |t| ==> t[k].jobId != t[p].jobId;
    LastPlaceAt(t, t[p].jobId, p);
  }

  /**
   * With unique ids, each kind of rank is a permutation of 1..N: rank `k + 1`
   * belongs to the job sorted into place `k` (see also `RanksDistinct`).
   */
  lemma RanksArePermutation(s: seq<Job>, m: Metric)
    requires UniqueIds(s)
    ensures forall k: nat :: k < |s| ==>
      SortDesc(s, m)[k].jobId in IdSet(s) && LastPlace(SortDesc(s, m), SortDesc(s, m)[k].jobId) == Some(k + 1)
  {
    forall k: nat | k < |s|
      ensures SortDesc(s, m)[k].jobId in IdSet(s) && LastPlace(SortDesc(s, m), SortDesc(s, m)[k].jobId) == Some(k + 1)
    {
      RankOwner(s, m, k);
    }
  }

  /** Two different jobs of the merged list never share a rank. */
  lemma RanksDistinct(s: seq<Job>, m: Metric, id1: string, id2: string)
    requires id1 in IdSet(s) && id2 in IdSet(s) && id1 != id2
    ensures LastPlace(SortDesc(s, m), id1) != LastPlace(SortDesc(s, m), id2)
  {
    var t := SortDesc(s, m);
    IdSetOfPermutation(t, s);
    LastPlaceFacts(t, id1);
    LastPlaceFacts(t, id2);
  }

  /** The job sorted into place `k` owns rank `k + 1`. */
  lemma RankOwner(s: seq<Job>, m: Metric, k: nat)
    requires UniqueIds(s) && k < |s|
    ensures SortDesc(s, m)[k].jobId in IdSet(s)
    ensures LastPlace(SortDesc(s, m), SortDesc(s, m)[k].jobId) == Some(k + 1)
  {
    var t := SortDesc(s, m);
    SortKeepsUnique(s, m);
    IdSetOfPermutation(t, s);
    assert t[k] in t;
    LastPlaceAt(t, t[k].jobId, k);
  }

  // ---------------------------------------------------------------------
  // The selection of worst queries

  /** Python's `s[:k]`: a negative `k` drops that many jobs from the end. */
  function Head(s: seq<Job>, k: int): (r: seq<Job>)
    ensures |r| <= |s| && r == s[..|r|]
    ensures k >= 0 ==> |r| == if k <= |s| then k else |s|
    ensures k < 0 ==> |r| == if |s| + k >= 0 then |s| + k else 0
  {
    if k >= 0 then (if k <= |s| then s[..k] else s)
    else if |s| + k >= 0 then s[..|s| + k]
    else []
  }

  /** `sorted(all_jobs, key=..., reverse=True)[:limit]`. */
  function TopK(s: seq<Job>, m: Metric, limit: int): seq<Job> {
    Head(SortDesc(s, m), limit)
  }

  /** `worst_by_billed + worst_by_duration`, the list the dictionary is filled from. */
  function Candidates(s: seq<Job>, limit: int): seq<Job> {
    TopK(s, BilledGb, limit) + TopK(s, Duration, limit)
  }

  /** The distinct strings of `xs` in order of first occurrence: the key order of the dictionary. */
  function Dedup(xs: seq<string>): seq<string> {
    if xs == [] then []
    else
      var init := xs[..|xs| - 1];
      var last := xs[|xs| - 1];
      Dedup(init) + (if last in init then [] else [last])
  }

  /** `Dedup` keeps every string of `xs`, each once, and nothing else. */
  lemma {:induction false} DedupFacts(xs: seq<string>)
    ensures forall x :: x in Dedup(xs) <==> x in xs
    ensures forall a, b :: 0 <= a < b < |Dedup(xs)| ==> Dedup(xs)[a] != Dedup(xs)[b]
    ensures |Dedup(xs)| <= |xs|
  {
    if xs != [] {
      var init := xs[..|xs| - 1];
      DedupFacts(init);
      assert xs == init + [xs[|xs| - 1]];
    }
  }

  lemma IdsMembership(c: seq<Job>)
    ensures forall x :: x in Ids(c) <==> x in IdSet(c)
  {
    forall x | x in Ids(c) ensures x in IdSet(c) {
      var i :| 0 <= i < |c| && Ids(c)[i] == x;
      assert c[i] in c;
    }
    forall x | x in IdSet(c) ensures x in Ids(c) {
      var j :| j in c && j.jobId == x;
      var i :| 0 <= i < |c| && c[i] == j;
      assert Ids(c)[i] == x;
    }
  }

  /**
   * The value the dictionary holds for `id` after the merge loop: the last job
   * of `c` carrying that id.
   */
  function Latest(c: seq<Job>, id: string): (r: Option<Job>)
    ensures r.Some? <==> id in IdSet(c)
    ensures r.Some? ==> r.value.jobId == id && r.value in c
  {
    LastPlaceFacts(c, id);
    if LastPlace(c, id).None? then None else Some(c[LastPlace(c, id).value - 1])
  }

  /** The jobs of `c` for the ids `d`, each as its latest record. */
  function Pick(c: seq<Job>, d: seq<string>): (r: seq<Job>)
    requires forall x :: x in d ==> x in IdSet(c)
    ensures |r| == |d|
    ensures forall i :: 0 <= i < |d| ==> Latest(c, d[i]) == Some(r[i])
  {
    if d == [] then [] else [Latest(c, d[0]).value] + Pick(c, d[1..])
  }

  /** `list(final_worst_jobs.values())`. */
  function Selection(s: seq<Job>, limit: int): seq<Job> {
    var c := Candidates(s, limit);
    IdsMembership(c);
    DedupFacts(Ids(c));
    Pick(c, Dedup(Ids(c)))
  }

  /** One iteration of the merge loop keeps the dictionary equal to the spec of the prefix read so far. */
  lemma MergeStep(c: seq<Job>, n: nat, order: seq<string>, table: map<string, Job>)
    requires n < |c|
    requires order == Dedup(Ids(c[..n]))
    requires table.Keys == IdSet(c[..n])
    requires forall id :: id in table ==> Latest(c[..n], id) == Some(table[id])
    ensures var order' := if c[n].jobId in table then order else order + [c[n].jobId];
      var table' := table[c[n].jobId := c[n]];
      order' == Dedup(Ids(c[..n + 1])) && table'.Keys == IdSet(c[..n + 1]) &&
      forall id :: id in table' ==> Latest(c[..n + 1], id) == Some(table'[id])
  {
    MergeOrder(c, n);
    IdsMembership(c[..n]);
    MergeTable(c, n, table);
  }

  /** The key order grows by the new id only. */
  lemma MergeOrder(c: seq<Job>, n: nat)
    requires n < |c|
    ensures Dedup(Ids(c[..n + 1])) == Dedup(Ids(c[..n])) + (if c[n].jobId in Ids(c[..n]) then [] else [c[n].jobId])
  {
    var cur := c[..n + 1];
    assert cur == c[..n] + [c[n]];
    IdsAppend(c[..n], [c[n]]);
    DedupSnoc(Ids(c[..n]), c[n].jobId);
  }

  /** The new record replaces the value for its id; the others are unchanged. */
  lemma MergeTable(c: seq<Job>, n: nat, table: map<string, Job>)
    requires n < |c|
    requires table.Keys == IdSet(c[..n])
    requires forall id :: id in table ==> Latest(c[..n], id) == Some(table[id])
    ensures var table' := table[c[n].jobId := c[n]];
      table'.Keys == IdSet(c[..n + 1]) &&
      forall id :: id in table' ==> Latest(c[..n + 1], id) == Some(table'[id])
  {
    PlaceSnoc(c, n);
    LatestSnoc(c, n);
  }

  /** After one more record, its id's latest record is that one; the others keep theirs. */
  lemma LatestSnoc(c: seq<Job>, n: nat)
    requires n < |c|
    ensures forall id :: Latest(c[..n + 1], id) == if id == c[n].jobId then Some(c[n]) else Latest(c[..n], id)
  {
    forall id ensures Latest(c[..n + 1], id) == if id == c[n].jobId then Some(c[n]) else Latest(c[..n], id) {
      LatestSnocAt(c, n, id);
    }
  }

  lemma LatestSnocAt(c: seq<Job>, n: nat, id: string)
    requires n < |c|
    ensures Latest(c[..n + 1], id) == if id == c[n].jobId then Some(c[n]) else Latest(c[..n], id)
  {
    PlaceSnoc(c, n);
    if id != c[n].jobId && LastPlace(c[..n], id).Some? {
      var p := LastPlace(c[..n], id).value;
      LastPlaceFacts(c[..n], id);
      assert c[..n + 1][p - 1] == c[..n][p - 1];
    }
  }


  /** `final_worst_jobs` and then the list of its values. */
  method SelectWorst(allJobs: seq<Job>, limit: int) returns (selected: seq<Job>)
    ensures selected == Selection(allJobs, limit)
  {
    var worstByCost := Head(SortDesc(allJobs, BilledGb), limit);
    var worstByDuration := Head(SortDesc(allJobs, Duration), limit);
    var c := worstByCost + worstByDuration;
    var order, table := MergeTop(c);
    IdsMembership(c);
    DedupFacts(Ids(c));
    selected := seq(|order|, i requires 0 <= i < |order| => table[order[i]]);
    SelectionAsPick(c, order, selected);
  }

  /** The loop that merges the two top lists into `final_worst_jobs` (key order and contents). */
  method MergeTop(c: seq<Job>) returns (order: seq<string>, table: map<string, Job>)
    ensures order == Dedup(Ids(c))
    ensures table.Keys == IdSet(c)
    ensures forall id :: id in table ==> Latest(c, id) == Some(table[id])
  {
    order := [];
    table := map[];
    for n := 0 to |c|
      invariant order == Dedup(Ids(c[..n]))
      invariant table.Keys == IdSet(c[..n])
      invariant forall id :: id in table ==> Latest(c[..n], id) == Some(table[id])
    {
      MergeStep(c, n, order, table);
      var job := c[n];
      if job.jobId !in table {
        order := order + [job.jobId];
      }
      table := table[job.jobId := job];
    }
    assert c[..|c|] == c;
  }

  lemma {:induction false} SelectionAsPick(c: seq<Job>, d: seq<string>, r: seq<Job>)
    requires forall x :: x in d ==> x in IdSet(c)
    requires |r| == |d| && forall i :: 0 <= i < |d| ==> Latest(c, d[i]) == Some(r[i])
    ensures r == Pick(c, d)
  {
    if d != [] {
      SelectionAsPick(c, d[1..], r[1..]);
    }
  }

  // ---------------------------------------------------------------------
  // Properties of the selection

  /** The elements of `b` that do not occur in `a`, in order. */
  function Fresh(b: seq<string>, a: seq<string>): seq<string> {
    if b == [] then []
    else
      var last := b[|b| - 1];
      Fresh(b[..|b| - 1], a) + (if last in a then [] else [last])
  }

  lemma DedupSnoc(xs: seq<string>, x: string)
    ensures Dedup(xs + [x]) == Dedup(xs) + (if x in xs then [] else [x])
  {
    assert (xs + [x])[..|xs|] == xs;
  }

  lemma FreshSnoc(b: seq<string>, x: string, a: seq<string>)
    ensures Fresh(b + [x], a) == Fresh(b, a) + (if x in a then [] else [x])
  {
    assert (b + [x])[..|b|] == b;
  }

  /** Deduplicating a concatenation keeps the first part and appends what is new in the second. */
  lemma {:induction false} DedupAppend(a: seq<string>, b: seq<string>)
    ensures Dedup(a + b) == Dedup(a) + Dedup(Fresh(b, a))
  {
    if b == [] {
      assert a + b == a;
      assert Dedup(a) + Dedup(Fresh(b, a)) == Dedup(a) + [];
    } else {
      var init := b[..|b| - 1];
      var last := b[|b| - 1];
      assert b == init + [last];
      DedupAppend(a, init);
      DedupAppendStep(a, init, last);
    }
  }

  lemma DedupAppendStep(a: seq<string>, init: seq<string>, last: string)
    requires Dedup(a + init) == Dedup(a) + Dedup(Fresh(init, a))
    ensures Dedup(a + (init + [last])) == Dedup(a) + Dedup(Fresh(init + [last], a))
  {
    assert a + (init + [last]) == (a + init) + [last];
    DedupSnoc(a + init, last);
    FreshSnoc(init, last, a);
    if last in a {
      DedupStepSeen(a, init, last);
    } else {
      DedupStepNew(a, init, last);
    }
  }

  lemma DedupStepSeen(a: seq<string>, init: seq<string>, last: string)
    requires last in a
    requires Dedup(a + init) == Dedup(a) + Dedup(Fresh(init, a))
    requires Dedup((a + init) + [last]) == Dedup(a + init) + (if last in a + init then [] else [last])
    requires Fresh(init + [last], a) == Fresh(init, a) + (if last in a then [] else [last])
    ensures Dedup((a + init) + [last]) == Dedup(a) + Dedup(Fresh(init + [last], a))
  {
    assert last in a + init;
    assert Fresh(init, a) + [] == Fresh(init, a);
    assert Dedup(a + init) + [] == Dedup(a + init);
  }

  lemma DedupStepNew(a: seq<string>, init: seq<string>, last: string)
    requires last !in a
    requires Dedup(a + init) == Dedup(a) + Dedup(Fresh(init, a))
    requires Dedup((a + init) + [last]) == Dedup(a + init) + (if last in a + init then [] else [last])
    requires Fresh(init + [last], a) == Fresh(init, a) + (if last in a then [] else [last])
    ensures Dedup((a + init) + [last]) == Dedup(a) + Dedup(Fresh(init + [last], a))
  {
    var f := Fresh(init, a);
    DedupSnoc(f, last);
    FreshMembers(init, a);
    if last in init {
      assert last in a + init;
      assert last in f;
    } else {
      assert last !in a + init;
      assert last !in f;
      Assoc(Dedup(a), Dedup(f), [last]);
    }
  }

  lemma Assoc<T>(x: seq<T>, y: seq<T>, z: seq<T>)
    ensures (x + y) + z == x + (y + z)
  {
  }

  lemma {:induction false} FreshMembers(b: seq<string>, a: seq<string>)
    ensures forall x :: x in Fresh(b, a) <==> x in b && x !in a
  {
    if b != [] {
      FreshMembers(b[..|b| - 1], a);
      assert b == b[..|b| - 1] + [b[|b| - 1]];
    }
  }

  /** Deduplication leaves a sequence without repetitions unchanged. */
  lemma {:induction false} DedupDistinct(xs: seq<string>)
    requires forall a, b :: 0 <= a < b < |xs| ==> xs[a] != xs[b]
    ensures Dedup(xs) == xs
  {
    if xs != [] {
      var init := xs[..|xs| - 1];
      DedupDistinct(init);
      assert xs == init + [xs[|xs| - 1]];
    }
  }

  lemma PickIds(c: seq<Job>, d: seq<string>)
    requires forall x :: x in d ==> x in IdSet(c)
    ensures Ids(Pick(c, d)) == d
  {
  }

  lemma SelectionIds(s: seq<Job>, limit: int)
    ensures Ids(Selection(s, limit)) == Dedup(Ids(Candidates(s, limit)))
  {
    var c := Candidates(s, limit);
    IdsMembership(c);
    DedupFacts(Ids(c));
    PickIds(c, Dedup(Ids(c)));
  }

  /** No `job_id` is selected twice. */
  lemma SelectionUnique(s: seq<Job>, limit: int)
    ensures UniqueIds(Selection(s, limit))
  {
    SelectionIds(s, limit);
    DedupFacts(Ids(Candidates(s, limit)));
    var r := Selection(s, limit);
    forall a, b | 0 <= a < b < |r| ensures r[a].jobId != r[b].jobId {
      assert Ids(r)[a] == r[a].jobId && Ids(r)[b] == r[b].jobId;
    }
  }

  /** Every selected job is a job of the merged list. */
  lemma SelectionFromMerged(s: seq<Job>, limit: int)
    ensures forall j :: j in Selection(s, limit) ==> j in s
  {
    var c := Candidates(s, limit);
    IdsMembership(c);
    var d := Dedup(Ids(c));
    var r := Selection(s, limit);
    assert r == Pick(c, d);
    forall j | j in r ensures j in s {
      var i :| 0 <= i < |r| && r[i] == j;
      assert Latest(c, d[i]) == Some(j);
      assert j in c;
      var byCost := SortDesc(s, BilledGb);
      var byDuration := SortDesc(s, Duration);
      if j in TopK(s, BilledGb, limit) {
        assert j in multiset(byCost);
      } else {
        assert j in TopK(s, Duration, limit);
        assert j in multiset(byDuration);
      }
    }
  }

  /** At most `limit` jobs come from each ordering. */
  lemma SelectionBounded(s: seq<Job>, limit: int)
    requires limit >= 0
    ensures |Selection(s, limit)| <= 2 * limit
  {
    SelectionIds(s, limit);
    DedupFacts(Ids(Candidates(s, limit)));
  }

  /**
   * The selection is empty exactly when nothing was merged, the limit is 0,
   * or a negative limit cuts every job away (`[:-n]` with n at least N).
   * In particular a non-empty merged list and a limit of 1 or more give a
   * non-empty selection.
   */
  lemma SelectionEmptyIff(s: seq<Job>, limit: int)
    ensures |Selection(s, limit)| == 0 <==> |s| == 0 || limit == 0 || limit <= -|s|
  {
    var c := Candidates(s, limit);
    SelectionIds(s, limit);
    DedupFacts(Ids(c));
    if |c| > 0 {
      assert Ids(c)[0] in Ids(c);
    }
  }

  /**
   * The selection lists the ids of the top jobs by scanned volume first, then
   * the ids of the top jobs by duration not already listed, each in sorted order.
   */
  lemma SelectionOrder(s: seq<Job>, limit: int)
    ensures Ids(Selection(s, limit)) ==
      Dedup(Ids(TopK(s, BilledGb, limit))) + Dedup(Fresh(Ids(TopK(s, Duration, limit)), Ids(TopK(s, BilledGb, limit))))
  {
    var a := TopK(s, BilledGb, limit);
    var b := TopK(s, Duration, limit);
    SelectionIds(s, limit);
    assert Candidates(s, limit) == a + b;
    IdsAppend(a, b);
    DedupAppend(Ids(a), Ids(b));
  }

  lemma IdsAppend(a: seq<Job>, b: seq<Job>)
    ensures Ids(a + b) == Ids(a) + Ids(b)
  {
  }

  /**
   * With unique ids the top jobs by scanned volume are all selected, first
   * and in sorted order; so at least `min(limit, N)` jobs are selected.
   */
  lemma SelectionKeepsTopCost(s: seq<Job>, limit: int)
    requires UniqueIds(s) && limit >= 0
    ensures |Selection(s, limit)| >= |TopK(s, BilledGb, limit)| == if limit <= |s| then limit else |s|
    ensures Ids(TopK(s, BilledGb, limit)) == Ids(Selection(s, limit))[..|TopK(s, BilledGb, limit)|]
  {
    var a := TopK(s, BilledGb, limit);
    SortKeepsUnique(s, BilledGb);
    var ids := Ids(a);
    forall x, y | 0 <= x < y < |ids| ensures ids[x] != ids[y] {
      assert ids[x] == SortDesc(s, BilledGb)[x].jobId && ids[y] == SortDesc(s, BilledGb)[y].jobId;
    }
    DedupDistinct(ids);
    SelectionOrder(s, limit);
  }

  /**
   * Where a job id appears in both top lists, the record kept is the later
   * one in `worst_by_billed + worst_by_duration`.
   */
  lemma SelectionKeepsLaterRecord(s: seq<Job>, limit: int, i: nat)
    requires i < |Selection(s, limit)|
    ensures var c := Candidates(s, limit);
      var j := Selection(s, limit)[i];
      exists k :: 0 <= k < |c| && c[k] == j && forall k' :: k < k' < |c| ==> c[k'].jobId != j.jobId
  {
    var c := Candidates(s, limit);
    IdsMembership(c);
    var d := Dedup(Ids(c));
    var j := Selection(s, limit)[i];
    assert Latest(c, d[i]) == Some(j);
    LastPlaceFacts(c, d[i]);
    var k := LastPlace(c, d[i]).value - 1;
    assert c[k] == j;
  }
}

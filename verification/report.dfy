/**
 * The pieces of the audit report (`main` in main-app/src/main.py, steps 1
 * and 3 to 7): the per-region collection of storage proposals and job rows,
 * the storage section, one section per analysed worst query, the upload
 * link and the chat notification.
 *
 * The report is the list `report_lines`, joined with newlines at the end.
 * Each warehouse, model, storage and chat call is a parameter describing
 * its outcome.
 */
module Report {
  import opened Wrappers
  import opened Text
  import opened Jobs
  import Ranking
  import Schema
  import AnalyzerClient
  import Dictionary
  import Prompt
  import TimeWindow

  // ---------------------------------------------------------------------
  // Step 1: collecting proposals and job rows region by region

  /** The two answers of the storage analysis that are not proposals. */
  const NoStorageRows := "対象となるストレージデータがありませんでした。"
  const StorageFailed := "ストレージ分析に失敗しました。"

  /** The substrings the collection loop filters storage answers by. */
  const NoStorageMark := "対象となるストレージデータがありません"
  const FailureMark := "失敗しました"

  predicate Accepted(proposal: string) {
    !Contains(proposal, NoStorageMark) && !Contains(proposal, FailureMark)
  }

  function ProposalEntry(region: string, proposal: string): string {
    "### 📍 Region: " + region + "\n\n" + proposal + "\n"
  }

  /** The values the worst-ranking SQL template is filled with, besides project and region. */
  datatype SearchParams = SearchParams(analyzerEmail: string, window: TimeWindow.Window, limit: int)

  /** The storage analysis of a region: its table, or one of the two answers above. */
  type StorageAnalysis = string -> string

  /** The worst-ranking query of a region: its rows, or `None` when it raised. */
  type WorstQuery = (string, SearchParams) -> Option<seq<Job>>

  predicate Distinct(order: seq<string>) {
    forall a, b :: 0 <= a < b < |order| ==> order[a] != order[b]
  }

  /** `order` is one of the orders in which iterating over the set `regions` may visit it. */
  ghost predicate IsEnumeration(order: seq<string>, regions: set<string>) {
    Distinct(order) && forall r :: r in order <==> r in regions
  }

  /** `all_jobs` after visiting the regions in `order`. */
  function MergedJobs(order: seq<string>, worst: WorstQuery, params: SearchParams): seq<Job> {
    if order == [] then []
    else MergedJobs(order[..|order| - 1], worst, params) + worst(order[|order| - 1], params).GetOr([])
  }

  /** `storage_proposals` after visiting the regions in `order`. */
  function Proposals(order: seq<string>, storage: StorageAnalysis): seq<string> {
    if order == [] then []
    else
      var r := order[|order| - 1];
      Proposals(order[..|order| - 1], storage) + (if Accepted(storage(r)) then [ProposalEntry(r, storage(r))] else [])
  }

  /**
   * The loop over the target regions. Python visits a set in an order of its
   * own; the loop here picks any region not yet visited, and `order` records
   * the order it chose.
   */
  method CollectRegions(regions: set<string>, storage: StorageAnalysis, worst: WorstQuery, params: SearchParams)
    returns (allJobs: seq<Job>, proposals: seq<string>, ghost order: seq<string>)
    ensures IsEnumeration(order, regions)
    ensures allJobs == MergedJobs(order, worst, params)
    ensures proposals == Proposals(order, storage)
  {
    allJobs, proposals, order := [], [], [];
    var remaining := regions;
    while remaining != {}
      invariant Distinct(order)
      invariant forall r :: r in regions <==> r in order || r in remaining
      invariant forall r :: r in order ==> r !in remaining
      invariant allJobs == MergedJobs(order, worst, params)
      invariant proposals == Proposals(order, storage)
      decreases remaining
    {
      var region :| region in remaining;
      var proposal := storage(region);
      if Accepted(proposal) {
        proposals := proposals + [ProposalEntry(region, proposal)];
      }
      match worst(region, params) {
        case Some(rows) =>
          allJobs := allJobs + rows;
        case None =>
      }
      ghost var visited := order;
      order := order + [region];
      assert order[..|order| - 1] == visited;
      remaining := remaining - {region};
    }
  }

  /** The storage analysis never proposes anything when it found no data or failed. */
  lemma StorageSentinelsRejected()
    ensures !Accepted(NoStorageRows)
    ensures !Accepted(StorageFailed)
  {
    assert NoStorageRows == NoStorageMark + "でした。";
    assert NoStorageRows[0..|NoStorageMark|] == NoStorageMark;
    assert OccursAt(NoStorageRows, NoStorageMark, 0);
    var lead := "ストレージ分析に";
    assert StorageFailed == lead + FailureMark + "。";
    assert OccursAt(FailureMark, FailureMark, 0);
    OccursShift(lead, FailureMark, "。", FailureMark, 0);
  }

  /**
   * The proposals are exactly the entries of the regions whose storage answer
   * passes the filter, and there is one unless every answer is filtered out.
   */
  lemma {:induction false} ProposalsOfAcceptedRegions(order: seq<string>, storage: StorageAnalysis)
    ensures forall p :: p in Proposals(order, storage) <==>
      exists i :: 0 <= i < |order| && Accepted(storage(order[i])) && p == ProposalEntry(order[i], storage(order[i]))
    ensures Proposals(order, storage) != [] <==> exists i :: 0 <= i < |order| && Accepted(storage(order[i]))
  {
    if order != [] {
      var init := order[..|order| - 1];
      var last := order[|order| - 1];
      ProposalsOfAcceptedRegions(init, storage);
      forall i | 0 <= i < |init| ensures init[i] == order[i] {
      }
      if Accepted(storage(last)) {
        assert ProposalEntry(last, storage(last)) in Proposals(order, storage);
      }
    }
  }

  /**
   * The merged job list holds exactly the rows of the regions whose query
   * succeeded: a failed region contributes nothing.
   */
  lemma {:induction false} JobsFromRegions(order: seq<string>, worst: WorstQuery, params: SearchParams)
    ensures forall j :: j in MergedJobs(order, worst, params) <==>
      exists i :: 0 <= i < |order| && worst(order[i], params).Some? && j in worst(order[i], params).value
  {
    if order != [] {
      var init := order[..|order| - 1];
      JobsFromRegions(init, worst, params);
      forall i | 0 <= i < |init| ensures init[i] == order[i] {
      }
    }
  }

  // ---------------------------------------------------------------------
  // Steps 3 to 5: report lines other than the job sections

  function Header(project: string, timestamp: string): seq<string> {
    ["# BigQuery 監査レポート", "**対象プロジェクト:** `" + project + "`", "**作成日時:** " + timestamp, "\n---"]
  }

  const StorageTitle := "## 💾 ストレージ料金モデルの判定結果\n"
  const NoWorstQueries := "対象のワーストクエリは見つかりませんでした。\n"

  function StorageLines(proposals: seq<string>): seq<string> {
    if proposals == [] then [] else [StorageTitle, Join("\n", proposals), "---\n"]
  }

  function CountLine(n: nat): string {
    "## 🚨 ワーストクエリ解析（計 " + NatToString(n) + " 件）\n"
  }

  // ---------------------------------------------------------------------
  // Step 6: one section per worst query whose model call succeeds

  /** A rank, or `-` when `job_ranks` has none. */
  function RankText(r: Option<nat>): string {
    if r.Some? then NatToString(r.value) else "-"
  }

  /** `job_ranks.get(job_id, {})`. */
  function EntryFor(ranks: map<string, Ranking.RankEntry>, id: string): Ranking.RankEntry {
    if id in ranks then ranks[id] else Ranking.RankEntry(None, None)
  }

  function RankBlock(e: Ranking.RankEntry): string {
    "**【プロジェクト全体ランキング】**\n- スキャン量: ワースト **" + RankText(e.costRank)
    + "位**\n- 実行時間: ワースト **" + RankText(e.durationRank) + "位**\n"
  }

  /** The four lines appended for the `i`-th of `n` jobs once the model has answered `text`. */
  function JobSection(i: nat, n: nat, job: Job, e: Ranking.RankEntry, text: string): seq<string> {
    ["### 🔍 ワーストクエリ " + NatToString(i) + "/" + NatToString(n) + " (Job: `" + job.jobId + "`)\n",
     RankBlock(e), text, "\n---"]
  }

  /** The services each job is run through, as their outcomes. */
  datatype Services = Services(
    lookup: Schema.Lookup,
    analyzerUrl: Option<string>,
    post: AnalyzerClient.Post,
    master: Dictionary.Master,
    templateOk: bool,
    generate: (nat, Prompt.PromptText) -> Option<string>)

  /** Schema hints, analyzer findings, relevant dictionary entries, then the prompt. */
  function JobPrompt(job: Job, svc: Services): Prompt.PromptText {
    var findings := AnalyzerClient.AnalyzerText(svc.analyzerUrl, job.query, svc.post);
    Prompt.BuildPrompt(job, Schema.SchemaText(job.referencedTables, svc.lookup), findings,
                       Dictionary.ExtractRelevant(svc.master, findings), svc.templateOk)
  }

  /** The model's answer for each selected job, in selection order. */
  function Answers(selected: seq<Job>, svc: Services): seq<Option<string>> {
    seq(|selected|, i requires 0 <= i < |selected| => svc.generate(i + 1, JobPrompt(selected[i], svc)))
  }

  /** The lines appended for the job at 0-based index `idx`: a section, or nothing when the model call failed. */
  function SectionOf(selected: seq<Job>, answers: seq<Option<string>>, idx: nat, ranks: map<string, Ranking.RankEntry>): (r: seq<string>)
    requires |answers| == |selected| && idx < |selected|
    ensures |r| == if answers[idx].Some? then 4 else 0
  {
    match answers[idx]
    case None => []
    case Some(text) => JobSection(idx + 1, |selected|, selected[idx], EntryFor(ranks, selected[idx].jobId), text)
  }

  /** The lines the loop appends for the first `k` selected jobs. */
  function Sections(selected: seq<Job>, answers: seq<Option<string>>, k: nat, ranks: map<string, Ranking.RankEntry>): seq<string>
    requires |answers| == |selected| && k <= |selected|
  {
    if k == 0 then [] else Sections(selected, answers, k - 1, ranks) + SectionOf(selected, answers, k - 1, ranks)
  }

  /** The loop over the selected jobs. */
  method AnalyzeJobs(selected: seq<Job>, ranks: map<string, Ranking.RankEntry>, svc: Services) returns (lines: seq<string>)
    ensures lines == Sections(selected, Answers(selected, svc), |selected|, ranks)
  {
    ghost var answers := Answers(selected, svc);
    lines := [];
    var n := |selected|;
    for k := 0 to n
      invariant lines == Sections(selected, answers, k, ranks)
    {
      var job := selected[k];
      var schemaText := Schema.SchemaInfo(job.referencedTables, svc.lookup);
      var findings := AnalyzerClient.AnalyzerText(svc.analyzerUrl, job.query, svc.post);
      var dictionary := Dictionary.ExtractRelevant(svc.master, findings);
      var prompt := Prompt.BuildPrompt(job, schemaText, findings, dictionary, svc.templateOk);
      AnswerAt(selected, svc, k);
      SectionsStep(selected, answers, k, ranks);
      match svc.generate(k + 1, prompt) {
        case Some(text) =>
          lines := lines + JobSection(k + 1, n, job, EntryFor(ranks, job.jobId), text);
        case None =>
      }
    }
  }

  /** The answer recorded for the job at index `k` is the model's reply to that job's prompt. */
  lemma AnswerAt(selected: seq<Job>, svc: Services, k: nat)
    requires k < |selected|
    ensures |Answers(selected, svc)| == |selected|
    ensures Answers(selected, svc)[k] == svc.generate(k + 1, JobPrompt(selected[k], svc))
  {
  }

  lemma SectionsStep(selected: seq<Job>, answers: seq<Option<string>>, k: nat, ranks: map<string, Ranking.RankEntry>)
    requires |answers| == |selected| && k < |selected|
    ensures Sections(selected, answers, k + 1, ranks) == Sections(selected, answers, k, ranks) + SectionOf(selected, answers, k, ranks)
  {
  }

  /** The 0-based indices, below `k`, of the jobs whose model call succeeded. */
  function Answered(answers: seq<Option<string>>, k: nat): seq<nat>
    requires k <= |answers|
  {
    if k == 0 then []
    else Answered(answers, k - 1) + (if answers[k - 1].Some? then [k - 1] else [])
  }

  /**
   * The answered indices are exactly those below `k` whose model call
   * succeeded, listed in increasing order.
   */
  lemma {:induction false} AnsweredFacts(answers: seq<Option<string>>, k: nat)
    requires k <= |answers|
    ensures var a := Answered(answers, k);
      (forall m :: 0 <= m < |a| ==> a[m] < k && answers[a[m]].Some?) &&
      (forall m1, m2 :: 0 <= m1 < m2 < |a| ==> a[m1] < a[m2]) &&
      (forall idx :: 0 <= idx < k && answers[idx].Some? ==> idx in a)
  {
    if k > 0 {
      AnsweredFacts(answers, k - 1);
    }
  }

  /**
   * The job sections are four lines per successful model call, in selection
   * order: a failed call appends nothing, and the `m`-th four lines are the
   * section of the `m`-th job that was answered.
   */
  lemma {:induction false} SectionsLayout(selected: seq<Job>, answers: seq<Option<string>>, k: nat, ranks: map<string, Ranking.RankEntry>)
    requires |answers| == |selected| && k <= |selected|
    ensures |Sections(selected, answers, k, ranks)| == 4 * |Answered(answers, k)|
    ensures var a := Answered(answers, k);
      forall m :: 0 <= m < |a| ==>
        (a[m] < |selected| && Sections(selected, answers, k, ranks)[4 * m..4 * m + 4] == SectionOf(selected, answers, a[m], ranks))
  {
    SectionsFlatten(selected, answers, k, ranks);
    BlockSizes(selected, answers, k, ranks);
    FlattenLayout(Blocks(selected, answers, k, ranks));
    forall m | 0 <= m < |Answered(answers, k)|
      ensures Blocks(selected, answers, k, ranks)[Answered(answers, k)[m]] == SectionOf(selected, answers, Answered(answers, k)[m], ranks)
    {
      BlockAt(selected, answers, k, ranks, Answered(answers, k)[m]);
    }
  }

  /** The per-job blocks of lines for the first `k` selected jobs. */
  function Blocks(selected: seq<Job>, answers: seq<Option<string>>, k: nat, ranks: map<string, Ranking.RankEntry>): (r: seq<seq<string>>)
    requires |answers| == |selected| && k <= |selected|
    ensures |r| == k
  {
    seq(k, i requires 0 <= i < k => SectionOf(selected, answers, i, ranks))
  }

  lemma BlockAt(selected: seq<Job>, answers: seq<Option<string>>, k: nat, ranks: map<string, Ranking.RankEntry>, i: nat)
    requires |answers| == |selected| && i < k <= |selected|
    ensures Blocks(selected, answers, k, ranks)[i] == SectionOf(selected, answers, i, ranks)
  {
  }

  lemma BlockSizes(selected: seq<Job>, answers: seq<Option<string>>, k: nat, ranks: map<string, Ranking.RankEntry>)
    requires |answers| == |selected| && k <= |selected|
    ensures forall i :: 0 <= i < k ==>
      (Blocks(selected, answers, k, ranks)[i] == [] <==> answers[i].None?) &&
      (|Blocks(selected, answers, k, ranks)[i]| == 0 || |Blocks(selected, answers, k, ranks)[i]| == 4)
  {
    forall i | 0 <= i < k
      ensures (Blocks(selected, answers, k, ranks)[i] == [] <==> answers[i].None?) &&
        (|Blocks(selected, answers, k, ranks)[i]| == 0 || |Blocks(selected, answers, k, ranks)[i]| == 4)
    {
      BlockAt(selected, answers, k, ranks, i);
    }
  }

  /** The loop's lines are its blocks laid end to end, and the answered jobs are the non-empty blocks. */
  lemma {:induction false} SectionsFlatten(selected: seq<Job>, answers: seq<Option<string>>, k: nat, ranks: map<string, Ranking.RankEntry>)
    requires |answers| == |selected| && k <= |selected|
    ensures Sections(selected, answers, k, ranks) == Flatten(Blocks(selected, answers, k, ranks))
    ensures Answered(answers, k) == Filled(Blocks(selected, answers, k, ranks))
  {
    if k > 0 {
      SectionsFlatten(selected, answers, k - 1, ranks);
      assert Blocks(selected, answers, k, ranks)[..k - 1] == Blocks(selected, answers, k - 1, ranks);
      BlockAt(selected, answers, k, ranks, k - 1);
    }
  }

  /** Blocks laid end to end. */
  function Flatten<T>(blocks: seq<seq<T>>): seq<T> {
    if blocks == [] then [] else Flatten(blocks[..|blocks| - 1]) + blocks[|blocks| - 1]
  }

  /** The indices of the non-empty blocks, in increasing order. */
  function Filled<T>(blocks: seq<seq<T>>): seq<nat> {
    if blocks == [] then []
    else Filled(blocks[..|blocks| - 1]) + (if blocks[|blocks| - 1] != [] then [|blocks| - 1] else [])
  }

  /** With every block empty or four long, the `m`-th four elements are the `m`-th non-empty block. */
  lemma {:induction false} FlattenLayout<T>(blocks: seq<seq<T>>)
    requires forall i :: 0 <= i < |blocks| ==> |blocks[i]| == 0 || |blocks[i]| == 4
    ensures |Flatten(blocks)| == 4 * |Filled(blocks)|
    ensures forall m :: 0 <= m < |Filled(blocks)| ==>
      Filled(blocks)[m] < |blocks| && Flatten(blocks)[4 * m..4 * m + 4] == blocks[Filled(blocks)[m]]
  {
    if blocks != [] {
      var init := blocks[..|blocks| - 1];
      var last := blocks[|blocks| - 1];
      FlattenLayout(init);
      forall m | 0 <= m < |Filled(blocks)|
        ensures Filled(blocks)[m] < |blocks| && Flatten(blocks)[4 * m..4 * m + 4] == blocks[Filled(blocks)[m]]
      {
        if m < |Filled(init)| {
          QuadOfPrefix(Flatten(init), last, m, |Filled(init)|);
        } else {
          QuadOfSuffix(Flatten(init), last, m);
        }
      }
    }
  }

  /** The `m`-th block of four in a sequence of `n` such blocks is untouched by appending. */
  lemma QuadOfPrefix<T>(p: seq<T>, t: seq<T>, m: nat, n: nat)
    requires |p| == 4 * n && m < n
    ensures (p + t)[4 * m..4 * m + 4] == p[4 * m..4 * m + 4]
  {
  }

  /** A block of four appended after `n` blocks is the `n`-th block. */
  lemma QuadOfSuffix<T>(p: seq<T>, t: seq<T>, n: nat)
    requires |p| == 4 * n && |t| == 4
    ensures (p + t)[4 * n..4 * n + 4] == t
  {
  }

  /** The section of an answered job: header, rank block, the model's text and a rule. */
  lemma AnsweredSection(selected: seq<Job>, answers: seq<Option<string>>, idx: nat, ranks: map<string, Ranking.RankEntry>)
    requires |answers| == |selected| && idx < |selected| && answers[idx].Some?
    ensures var s := SectionOf(selected, answers, idx, ranks);
      s[0] == "### 🔍 ワーストクエリ " + NatToString(idx + 1) + "/" + NatToString(|selected|) + " (Job: `" + selected[idx].jobId + "`)\n" &&
      s[1] == RankBlock(EntryFor(ranks, selected[idx].jobId)) && s[2] == answers[idx].value && s[3] == "\n---"
  {
  }

  /**
   * A job the selection picked always shows both of its ranks as numbers:
   * `-` never appears in the rank block of a selected job.
   */
  lemma SelectedJobsShowRanks(allJobs: seq<Job>, limit: int, j: Job)
    requires j in Ranking.Selection(allJobs, limit)
    ensures var e := EntryFor(Ranking.RankMap(allJobs), j.jobId);
      e.costRank.Some? && e.durationRank.Some? &&
      1 <= e.costRank.value <= |allJobs| && 1 <= e.durationRank.value <= |allJobs| &&
      RankText(e.costRank) != "-" && RankText(e.durationRank) != "-"
  {
    Ranking.SelectionFromMerged(allJobs, limit);
    assert j.jobId in Ranking.IdSet(allJobs);
    Ranking.RanksRecorded(allJobs, j.jobId);
    var e := EntryFor(Ranking.RankMap(allJobs), j.jobId);
    assert IsDigit(RankText(e.costRank)[0]) && IsDigit(RankText(e.durationRank)[0]);
  }

  // ---------------------------------------------------------------------
  // Step 7: upload and notification

  function ReportFileName(project: string, timestamp: string): string {
    "bq_audit_report_" + project + "_" + timestamp + ".md"
  }

  /**
   * `upload_report_to_gcs`: no bucket means no upload; otherwise the console
   * link of the stored file, or `None` when storing it raised.
   */
  function Upload(bucket: Option<string>, project: string, timestamp: string, stored: bool): Option<string> {
    if !Given(bucket) || !stored then None
    else Some("https://console.cloud.google.com/storage/browser/_details/" + bucket.value + "/"
              + ReportFileName(project, timestamp) + "?project=" + project)
  }

  const Completed := "✅ *本日の BigQuery 監査レポートが完了しました。*"

  function LinkNotice(url: string): string {
    Completed + "\n詳細なレポート（Markdown）はこちらのリンクから確認できます:\n" + url
  }

  const UnsavedNotice := Completed + "\n(※GCSへの保存に失敗したか、バケットが未設定です)"

  /**
   * The text handed to `send_to_slack`, if it is called at all: the link when
   * the upload gave one; without a link only a run that analysed jobs reports
   * the missing upload.
   */
  function Notice(url: Option<string>, jobsAnalyzed: bool): (r: Option<string>)
    ensures r.Some? <==> Given(url) || jobsAnalyzed
  {
    if Given(url) then Some(LinkNotice(url.value))
    else if jobsAnalyzed then Some(UnsavedNotice)
    else None
  }

  /** What `send_to_slack` posts: nothing when no webhook is configured. */
  function SlackPost(webhook: Option<string>, text: string): Option<string> {
    if Given(webhook) then Some(text) else None
  }

  /**
   * Whenever the upload succeeds the notice carries the console link, and it
   * names the report's file; a run that analysed jobs always has a notice,
   * which says the report was saved exactly when there is a link.
   */
  lemma NoticeFollowsUpload(bucket: Option<string>, project: string, timestamp: string, stored: bool, jobsAnalyzed: bool)
    ensures var url := Upload(bucket, project, timestamp, stored);
      url.Some? <==> Given(bucket) && stored
    ensures var url := Upload(bucket, project, timestamp, stored);
      url.Some? ==> Given(url) && Notice(url, jobsAnalyzed) == Some(LinkNotice(url.value)) &&
                    Contains(url.value, ReportFileName(project, timestamp))
    ensures var url := Upload(bucket, project, timestamp, stored);
      url.None? ==> Notice(url, jobsAnalyzed) == if jobsAnalyzed then Some(UnsavedNotice) else None
  {
    var url := Upload(bucket, project, timestamp, stored);
    if url.Some? {
      var pre := "https://console.cloud.google.com/storage/browser/_details/" + bucket.value + "/";
      var name := ReportFileName(project, timestamp);
      assert url.value == pre + name + ("?project=" + project);
      assert OccursAt(name, name, 0);
      OccursShift(pre, name, "?project=" + project, name, 0);
    }
  }
}

/**
 * One run of the audit job (`main` in main-app/src/main.py): configuration
 * check, region discovery, collection, ranking and selection, report
 * assembly, upload and notification.
 *
 * The configuration is the record of environment settings the job reads;
 * every outside call is a field of `Environment` giving its outcome.
 */
module Audit {
  import opened Wrappers
  import opened Text
  import opened Jobs
  import Ranking
  import Schema
  import AnalyzerClient
  import Dictionary
  import Prompt
  import Regions
  import TimeWindow
  import Report

  /** The environment settings `main` depends on. */
  datatype Config = Config(
    saasProject: Option<string>,
    customerProject: Option<string>,
    analyzerUrl: Option<string>,
    slackWebhook: Option<string>,
    bucket: Option<string>,
    window: TimeWindow.Settings,
    worstLimit: int)

  /** The outcomes of the warehouse, storage, model and chat calls of one run. */
  datatype Environment = Environment(
    templatesLoaded: bool,
    analyzerEmail: string,
    master: Dictionary.Master,
    listing: Regions.Listing,
    timestamp: string,
    storage: Report.StorageAnalysis,
    worst: Report.WorstQuery,
    lookup: Schema.Lookup,
    post: AnalyzerClient.Post,
    promptTemplateLoaded: bool,
    generate: (nat, Prompt.PromptText) -> Option<string>,
    stored: bool,
    uploadTimestamp: string)

  /**
   * How a run ends: one of the early returns, or a report that was built,
   * the link its upload produced and the message posted to the chat webhook.
   */
  datatype Outcome =
    | NotConfigured
    | TemplatesMissing
    | NoActiveRegions
    | Published(report: string, url: Option<string>, slackMessage: Option<string>)

  predicate Configured(cfg: Config) {
    Given(cfg.saasProject) && Given(cfg.customerProject)
  }

  function Params(cfg: Config, env: Environment): Report.SearchParams {
    Report.SearchParams(env.analyzerEmail, TimeWindow.TimeRange(cfg.window), cfg.worstLimit)
  }

  function ServicesOf(cfg: Config, env: Environment): Report.Services {
    Report.Services(env.lookup, cfg.analyzerUrl, env.post, env.master, env.promptTemplateLoaded, env.generate)
  }

  /** `all_jobs` after step 2: the selection, or the empty merged list itself. */
  function Selected(allJobs: seq<Job>, limit: int): seq<Job> {
    if allJobs == [] then [] else Ranking.Selection(allJobs, limit)
  }

  /** Step 2: the rank map and the selection, both left empty when no job was found. */
  method RankAndSelect(allJobs: seq<Job>, limit: int) returns (selected: seq<Job>, ranks: map<string, Ranking.RankEntry>)
    ensures selected == Selected(allJobs, limit)
    ensures ranks == Ranking.RankMap(allJobs)
  {
    selected := allJobs;
    ranks := map[];
    if allJobs != [] {
      ranks := Ranking.ComputeRanks(allJobs);
      selected := Ranking.SelectWorst(allJobs, limit);
    } else {
      assert Ranking.IdSet(allJobs) == {};
    }
  }

  /** `report_lines` once every step has appended its lines. */
  function ReportLines(project: string, timestamp: string, proposals: seq<string>, selected: seq<Job>,
                       ranks: map<string, Ranking.RankEntry>, svc: Report.Services): seq<string>
  {
    var head := Report.Header(project, timestamp) + Report.StorageLines(proposals);
    if selected == [] then head + [Report.NoWorstQueries]
    else head + [Report.CountLine(|selected|)] + Report.Sections(selected, Report.Answers(selected, svc), |selected|, ranks)
  }

  /** Steps 3 to 6: the storage section, then the "not found" line or the job sections. */
  method AssembleReport(project: string, timestamp: string, proposals: seq<string>, selected: seq<Job>,
                        ranks: map<string, Ranking.RankEntry>, svc: Report.Services) returns (lines: seq<string>)
    ensures lines == ReportLines(project, timestamp, proposals, selected, ranks, svc)
  {
    lines := Report.Header(project, timestamp);
    if proposals != [] {
      lines := lines + [Report.StorageTitle, Join("\n", proposals), "---\n"];
    }
    assert lines == Report.Header(project, timestamp) + Report.StorageLines(proposals);
    if selected == [] {
      lines := lines + [Report.NoWorstQueries];
      return;
    }
    lines := lines + [Report.CountLine(|selected|)];
    var sections := Report.AnalyzeJobs(selected, ranks, svc);
    lines := lines + sections;
  }

  /** The message posted to the webhook, if any. */
  function Notification(webhook: Option<string>, url: Option<string>, analyzed: bool): Option<string> {
    var notice := Report.Notice(url, analyzed);
    if notice.Some? then Report.SlackPost(webhook, notice.value) else None
  }

  /** A run that found regions, from the collected jobs and proposals onwards. */
  function Finish(cfg: Config, env: Environment, allJobs: seq<Job>, proposals: seq<string>): Outcome
    requires Configured(cfg)
  {
    var selected := Selected(allJobs, cfg.worstLimit);
    var lines := ReportLines(cfg.customerProject.value, env.timestamp, proposals, selected,
                             Ranking.RankMap(allJobs), ServicesOf(cfg, env));
    var url := Report.Upload(cfg.bucket, cfg.customerProject.value, env.uploadTimestamp, env.stored);
    Published(Join("\n", lines), url, Notification(cfg.slackWebhook, url, selected != []))
  }

  /** The outcome of a run that visits the regions in `order`. */
  function AuditOutcome(cfg: Config, env: Environment, order: seq<string>): Outcome {
    if !Configured(cfg) then NotConfigured
    else if !env.templatesLoaded then TemplatesMissing
    else if Regions.RegionSet(env.listing) == {} then NoActiveRegions
    else Finish(cfg, env, Report.MergedJobs(order, env.worst, Params(cfg, env)), Report.Proposals(order, env.storage))
  }

  /** Steps 2 to 7 of `main`. */
  method Publish(cfg: Config, env: Environment, allJobs: seq<Job>, proposals: seq<string>) returns (outcome: Outcome)
    requires Configured(cfg)
    ensures outcome == Finish(cfg, env, allJobs, proposals)
  {
    var project := cfg.customerProject.value;
    var selected, ranks := RankAndSelect(allJobs, cfg.worstLimit);
    var lines := AssembleReport(project, env.timestamp, proposals, selected, ranks, ServicesOf(cfg, env));
    var report := Join("\n", lines);
    var url := Report.Upload(cfg.bucket, project, env.uploadTimestamp, env.stored);
    var message := None;
    if Given(url) {
      message := Report.SlackPost(cfg.slackWebhook, Report.LinkNotice(url.value));
    } else if selected != [] {
      message := Report.SlackPost(cfg.slackWebhook, Report.UnsavedNotice);
    }
    outcome := Published(report, url, message);
  }

  /**
   * The body of `main`. The ghost `order` is the order in which the region
   * set was visited; the outcome is the one that order determines.
   */
  method RunAudit(cfg: Config, env: Environment) returns (outcome: Outcome, ghost order: seq<string>)
    ensures outcome.Published? ==> Report.IsEnumeration(order, Regions.RegionSet(env.listing))
    ensures outcome == AuditOutcome(cfg, env, order)
  {
    order := [];
    if !Given(cfg.saasProject) || !Given(cfg.customerProject) {
      return NotConfigured, order;
    }
    if !env.templatesLoaded {
      return TemplatesMissing, order;
    }
    var regions := Regions.ActiveRegions(env.listing);
    if regions == {} {
      return NoActiveRegions, order;
    }
    var window := TimeWindow.TimeRange(cfg.window);
    var allJobs, proposals;
    allJobs, proposals, order := Report.CollectRegions(regions, env.storage, env.worst,
                                                       Report.SearchParams(env.analyzerEmail, window, cfg.worstLimit));
    outcome := Publish(cfg, env, allJobs, proposals);
  }

  // ---------------------------------------------------------------------
  // Properties of a run

  /**
   * The run stops before building any report when a project setting is
   * missing, the SQL templates cannot be read, or no active region is found
   * (which includes any failure while listing the datasets).
   */
  lemma RunEndsEarly(cfg: Config, env: Environment, order: seq<string>)
    ensures AuditOutcome(cfg, env, order) == NotConfigured <==> !Configured(cfg)
    ensures AuditOutcome(cfg, env, order) == NoActiveRegions <==>
      Configured(cfg) && env.templatesLoaded && Regions.RegionSet(env.listing) == {}
    ensures AuditOutcome(cfg, env, order).Published? <==>
      Configured(cfg) && env.templatesLoaded && Regions.RegionSet(env.listing) != {}
  {
  }

  /** Every report opens with its title line, followed by the project line. */
  lemma ReportOpensWithTitle(project: string, timestamp: string, proposals: seq<string>, selected: seq<Job>,
                             ranks: map<string, Ranking.RankEntry>, svc: Report.Services)
    ensures var lines := ReportLines(project, timestamp, proposals, selected, ranks, svc);
      |lines| >= 5 && lines[..4] == Report.Header(project, timestamp) &&
      StartsWith(Join("\n", lines), "# BigQuery 監査レポート")
  {
    var lines := ReportLines(project, timestamp, proposals, selected, ranks, svc);
    var head := Report.Header(project, timestamp) + Report.StorageLines(proposals);
    assert lines[..|head|] == head;
    assert lines[..4] == head[..4];
    JoinStartsWith("\n", lines);
  }

  /**
   * The storage section comes right after the header exactly when at least
   * one region's storage answer passed the filter.
   */
  lemma StorageSectionIff(project: string, timestamp: string, order: seq<string>, storage: Report.StorageAnalysis,
                          selected: seq<Job>, ranks: map<string, Ranking.RankEntry>, svc: Report.Services)
    ensures var lines := ReportLines(project, timestamp, Report.Proposals(order, storage), selected, ranks, svc);
      |lines| >= 5 &&
      (lines[4] == Report.StorageTitle <==> exists i :: 0 <= i < |order| && Report.Accepted(storage(order[i])))
  {
    Report.ProposalsOfAcceptedRegions(order, storage);
    ReportHead(project, timestamp, Report.Proposals(order, storage), selected, ranks, svc);
    TitleIsDistinct(|selected|);
  }

  /** The report's fifth line: the storage title, or else the line that follows the header. */
  lemma ReportHead(project: string, timestamp: string, proposals: seq<string>, selected: seq<Job>,
                   ranks: map<string, Ranking.RankEntry>, svc: Report.Services)
    ensures var lines := ReportLines(project, timestamp, proposals, selected, ranks, svc);
      |lines| >= 5 &&
      lines[4] == (if proposals != [] then Report.StorageTitle
                   else if selected == [] then Report.NoWorstQueries
                   else Report.CountLine(|selected|))
  {
    var head := Report.Header(project, timestamp) + Report.StorageLines(proposals);
    assert ReportLines(project, timestamp, proposals, selected, ranks, svc)[..|head|] == head;
  }

  /** Neither line that can follow the header in its place reads as the storage title. */
  lemma TitleIsDistinct(n: nat)
    ensures Report.NoWorstQueries != Report.StorageTitle && Report.CountLine(n) != Report.StorageTitle
  {
    assert Report.StorageTitle[3] == '💾';
    assert Report.NoWorstQueries[0] != Report.StorageTitle[0];
    assert Report.CountLine(n)[3] == '🚨';
  }

  /**
   * When jobs were selected, the report is the header, the storage section if
   * any, the count line and then four lines per job the model answered; with
   * none selected it ends with the "not found" line.
   */
  lemma ReportSize(project: string, timestamp: string, proposals: seq<string>, selected: seq<Job>,
                   ranks: map<string, Ranking.RankEntry>, svc: Report.Services)
    ensures var lines := ReportLines(project, timestamp, proposals, selected, ranks, svc);
      var head := 4 + |Report.StorageLines(proposals)|;
      (selected == [] ==> |lines| == head + 1 && lines[head] == Report.NoWorstQueries) &&
      (selected != [] ==> |lines| == head + 1 + 4 * |Report.Answered(Report.Answers(selected, svc), |selected|)| &&
                          lines[head] == Report.CountLine(|selected|))
  {
    if selected != [] {
      Report.SectionsLayout(selected, Report.Answers(selected, svc), |selected|, ranks);
    }
  }

  /**
   * After a run that found regions the webhook receives at most one message.
   * With jobs analysed there is always one: the link when the upload gave
   * one, the notice of the missing upload otherwise. Without jobs a message
   * is sent only when the upload gave a link.
   */
  lemma NotificationRules(cfg: Config, env: Environment, allJobs: seq<Job>, proposals: seq<string>)
    requires Configured(cfg)
    ensures var o := Finish(cfg, env, allJobs, proposals);
      var analyzed := Selected(allJobs, cfg.worstLimit) != [];
      (o.slackMessage.Some? ==> Given(cfg.slackWebhook)) &&
      (Given(cfg.slackWebhook) && analyzed ==>
        o.slackMessage == Some(if Given(o.url) then Report.LinkNotice(o.url.value) else Report.UnsavedNotice)) &&
      (!analyzed ==> (o.slackMessage.Some? <==> Given(cfg.slackWebhook) && Given(o.url)))
  {
  }

  /**
   * With jobs found and a limit of at least 1, between 1 and twice the limit
   * jobs are analysed, and every one of them has both its ranks recorded.
   */
  lemma SelectedCount(allJobs: seq<Job>, limit: int)
    requires allJobs != [] && limit >= 1
    ensures 1 <= |Selected(allJobs, limit)| <= 2 * limit
    ensures forall j :: j in Selected(allJobs, limit) ==>
      var e := Report.EntryFor(Ranking.RankMap(allJobs), j.jobId);
      e.costRank.Some? && e.durationRank.Some?
  {
    Ranking.SelectionEmptyIff(allJobs, limit);
    Ranking.SelectionBounded(allJobs, limit);
    forall j | j in Selected(allJobs, limit)
      ensures Report.EntryFor(Ranking.RankMap(allJobs), j.jobId).costRank.Some? &&
              Report.EntryFor(Ranking.RankMap(allJobs), j.jobId).durationRank.Some?
    {
      Report.SelectedJobsShowRanks(allJobs, limit, j);
    }
  }
}

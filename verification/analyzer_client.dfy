/**
 * The audit job's client of the anti-pattern service
 * (`analyze_with_bq_antipattern_analyzer` in main-app/src/main.py).
 *
 * The HTTP round trip is the parameter `post`: given the endpoint and the
 * query it says what came back. Fetching the identity token is part of that
 * round trip (a failure there is a `Failed` reply too).
 */
module AnalyzerClient {
  import opened Wrappers
  import opened Text
  import AnalyzerService

  const SkipNotice := "API URL未設定のため解析をスキップしました。"
  const CallFailed := "アンチパターンの解析ツール呼び出しに失敗しました。"
  const Route := "/analyze"

  /**
   * What the call produced: a JSON body whose `recommendations` field may be
   * missing, or any exception (no connection, timeout, error status).
   */
  datatype Reply = Answered(recommendations: Option<string>) | Failed

  type Post = (string, string) -> Reply

  /** The service URL with its trailing slashes removed, followed by `/analyze`. */
  function Endpoint(url: string): (r: string)
    ensures |r| >= |Route| && r[|r| - |Route|..] == Route
    ensures var base := r[..|r| - |Route|];
      StartsWith(url, base) && (base == [] || base[|base| - 1] != '/') &&
      forall k :: |base| <= k < |url| ==> url[k] == '/'
  {
    var base := RStripChar(url, '/');
    assert (base + Route)[..|base|] == base;
    base + Route
  }

  /** The text the audit passes on as the analyzer's findings. */
  function AnalyzerText(url: Option<string>, query: string, post: Post): string {
    if !Given(url) then SkipNotice
    else match post(Endpoint(url.value), query)
      case Failed => CallFailed
      case Answered(recommendations) => recommendations.GetOr("")
  }

  /** Two strippings of the same string that both meet the `rstrip` characterisation coincide. */
  lemma StrippedUnique(s: string, r1: string, r2: string, ch: char)
    requires StartsWith(s, r1) && (r1 == [] || r1[|r1| - 1] != ch) && forall k :: |r1| <= k < |s| ==> s[k] == ch
    requires StartsWith(s, r2) && (r2 == [] || r2[|r2| - 1] != ch) && forall k :: |r2| <= k < |s| ==> s[k] == ch
    ensures r1 == r2
  {
  }

  /** Trailing slashes on the configured URL do not change the endpoint. */
  lemma EndpointIgnoresTrailingSlash(url: string)
    ensures Endpoint(url + "/") == Endpoint(url)
  {
    var s := url + "/";
    var r1 := RStripChar(s, '/');
    var r2 := RStripChar(url, '/');
    assert |r1| <= |url|;
    assert StartsWith(url, r1) by {
      assert r1 == s[..|r1|];
      assert s[..|r1|] == url[..|r1|];
    }
    StrippedUnique(url, r1, r2, '/');
  }

  /** Without a URL nothing is sent: the result does not depend on the transport. */
  lemma SkipWithoutUrl(url: Option<string>, query: string, post1: Post, post2: Post)
    requires !Given(url)
    ensures AnalyzerText(url, query, post1) == AnalyzerText(url, query, post2) == SkipNotice
  {
  }

  /** With a URL, only the reply of the endpoint for this very query matters. */
  lemma OnlyEndpointReplyMatters(url: string, query: string, post1: Post, post2: Post)
    requires url != ""
    requires post1(Endpoint(url), query) == post2(Endpoint(url), query)
    ensures AnalyzerText(Some(url), query, post1) == AnalyzerText(Some(url), query, post2)
  {
  }

  /**
   * How the client reads a response of the anti-pattern service:
   * `raise_for_status` turns the error statuses into a failure.
   */
  function ServiceReply(resp: AnalyzerService.Response): Reply {
    match resp
    case Success(_, recommendations) => Answered(Some(recommendations))
    case HttpError(_, _) => Failed
  }

  /**
   * End to end: when the service is reached, the audit sees the service's
   * extracted recommendations if the recogniser ran, and the failure notice
   * if the JAR is missing, timed out or crashed. Either way the text is not
   * empty, so the dictionary narrowing always receives something to search.
   */
  lemma ClientSeesService(url: string, query: string, post: Post, jarExists: bool, run: AnalyzerService.JarRun)
    requires url != ""
    requires post(Endpoint(url), query) == ServiceReply(AnalyzerService.AnalyzeQuery(query, jarExists, run))
    ensures jarExists && run.Finished? ==>
      AnalyzerText(Some(url), query, post) == AnalyzerService.ExtractRecommendations(run.output)
    ensures !(jarExists && run.Finished?) ==> AnalyzerText(Some(url), query, post) == CallFailed
    ensures AnalyzerText(Some(url), query, post) != ""
  {
    if jarExists && run.Finished? {
      var raw := run.output;
      if Contains(raw, AnalyzerService.Marker) {
        AnalyzerService.ExtractionOnMatch(raw);
      } else {
        AnalyzerService.ExtractionWithoutMarker(raw);
      }
    }
  }
}

/**
 * The anti-pattern analyzer service (`POST /analyze`): it runs the third-party
 * recogniser on the query, cuts the "Recommendations for query:" section out
 * of the tool's output and answers with it, or with an HTTP error.
 * Running the JAR is left abstract: the model receives its outcome.
 */
module AnalyzerService {
  import opened Wrappers
  import opened Text

  const Marker: string := "Recommendations for query:"
  const NoFindings: string := "No anti-patterns found."
  /** Number of query characters shown in the request log line. */
  const PreviewLimit: nat := 100

  /** "\n-" occurs at `q`: the next line begins with '-'. */
  predicate DashAt(raw: string, q: nat) {
    q + 1 < |raw| && raw[q] == '\n' && raw[q + 1] == '-'
  }

  /** Where the lookahead `(?=\n-|$)` succeeds: "\n-" follows, or `$` matches
      (end of input, or just before a newline that ends the input). */
  predicate StopsAt(raw: string, p: nat) {
    p <= |raw| && (DashAt(raw, p) || p == |raw| || (p + 1 == |raw| && raw[p] == '\n'))
  }

  /** The end the lazy `.*?` settles on: the first stopping position at or after `from`. */
  function StopFrom(raw: string, from: nat): (p: nat)
    requires from <= |raw|
    ensures from <= p <= |raw| && StopsAt(raw, p)
    ensures forall q: nat :: from <= q < p ==> !StopsAt(raw, q)
    decreases |raw| - from
  {
    if StopsAt(raw, from) then from else StopFrom(raw, from + 1)
  }

  /** `re.search(r"Recommendations for query:.*?(?=\n-|$)", raw, re.DOTALL)`:
      the matched text, or None when the marker never occurs. */
  function MatchSection(raw: string): Option<string> {
    match Find(raw, Marker)
    case None => None
    case Some(s) => Some(raw[s..StopFrom(raw, s + |Marker|)])
  }

  /** The `recommendations` field of a successful answer. */
  function ExtractRecommendations(raw: string): string {
    match MatchSection(raw)
    case Some(m) => Strip(m)
    case None => NoFindings
  }

  lemma MarkerShape()
    ensures |Marker| == 26 && Marker[0] == 'R' && Marker[25] == ':'
    ensures forall i :: 0 <= i < |Marker| ==> Marker[i] != '\n'
  {
  }

  lemma DashIsOccurrence(raw: string, q: nat)
    ensures DashAt(raw, q) <==> OccursAt(raw, "\n-", q)
  {
    if q + 2 <= |raw| {
      var w := raw[q..q + 2];
      assert w[0] == raw[q] && w[1] == raw[q + 1];
      assert DashAt(raw, q) ==> w == "\n-";
    }
  }

  /** `!Contains(raw, "\n-")`, position by position. */
  ghost predicate NoDash(raw: string) {
    forall q: nat :: !DashAt(raw, q)
  }

  lemma NoDashIsAbsence(raw: string)
    ensures NoDash(raw) <==> !Contains(raw, "\n-")
  {
    forall q: nat {
      DashIsOccurrence(raw, q);
    }
  }

  /** Trimming keeps a prefix that neither starts nor ends with white space. */
  lemma StripKeepsPrefix(m: string, head: string)
    requires StartsWith(m, head) && head != []
    requires !IsSpace(head[0]) && !IsSpace(head[|head| - 1])
    ensures StartsWith(Strip(m), head) && StartsWith(m, Strip(m))
  {
    assert LStripBy(m, IsSpace) == m by {
      assert m[0] == head[0];
    }
    var r := RStripBy(m, IsSpace);
    assert |r| >= |head| by {
      assert m[|head| - 1] == head[|head| - 1];
    }
    assert r[..|head|] == m[..|head|];
  }

  /** A prefix of a text free of "\n-" is free of it. */
  lemma PrefixNoDash(m: string, r: string)
    requires StartsWith(m, r) && NoDash(m)
    ensures NoDash(r)
  {
    forall q: nat
      ensures !DashAt(r, q)
    {
      if q + 1 < |r| {
        assert r[q] == m[q] && r[q + 1] == m[q + 1];
        assert !DashAt(m, q);
      }
    }
  }

  /** The lazy match stops before the first "\n-" after a head that holds no newline. */
  lemma MatchAvoidsDash(raw: string, s: nat, head: string)
    requires OccursAt(raw, head, s)
    requires forall k :: 0 <= k < |head| ==> head[k] != '\n'
    ensures NoDash(raw[s..StopFrom(raw, s + |head|)])
  {
    var p := StopFrom(raw, s + |head|);
    var m := raw[s..p];
    forall i: nat
      ensures !DashAt(m, i)
    {
      if i + 1 < |m| {
        assert m[i] == raw[s + i] && m[i + 1] == raw[s + i + 1];
        if i < |head| {
          assert raw[s..s + |head|][i] == head[i];
        } else {
          assert !StopsAt(raw, s + i);
        }
      }
    }
  }

  /** What the match is once trimmed: it begins with the marker, holds no "\n-",
      and has no surrounding white space. */
  lemma SectionShape(raw: string, s: nat)
    requires OccursAt(raw, Marker, s)
    ensures var r := Strip(raw[s..StopFrom(raw, s + |Marker|)]);
      StartsWith(r, Marker) && !Contains(r, "\n-") && Trimmed(r)
  {
    var p := StopFrom(raw, s + |Marker|);
    var m := raw[s..p];
    assert m[..|Marker|] == raw[s..s + |Marker|];
    MarkerShape();
    MatchAvoidsDash(raw, s, Marker);
    StripKeepsPrefix(m, Marker);
    PrefixNoDash(m, Strip(m));
    NoDashIsAbsence(Strip(m));
  }

  lemma ExtractionIsTrimmedMatch(raw: string, s: nat)
    requires Find(raw, Marker) == Some(s)
    ensures ExtractRecommendations(raw) == Strip(raw[s..StopFrom(raw, s + |Marker|)])
  {
  }

  lemma ExtractionIsSlice(raw: string, s: nat, e: nat)
    requires Find(raw, Marker) == Some(s)
    requires s + |Marker| <= |raw| && StopFrom(raw, s + |Marker|) == e
    ensures ExtractRecommendations(raw) == Strip(raw[s..e])
  {
  }

  /** On a match: the result starts with the marker (taken from its first occurrence),
      contains no "\n-" and carries no leading or trailing white space. */
  lemma ExtractionOnMatch(raw: string)
    requires Contains(raw, Marker)
    ensures var r := ExtractRecommendations(raw);
      StartsWith(r, Marker) && !Contains(r, "\n-") && Trimmed(r)
  {
    var s := Find(raw, Marker).value;
    ExtractionIsTrimmedMatch(raw, s);
    SectionShape(raw, s);
  }

  /** Without the marker the answer is the fixed sentinel. */
  lemma ExtractionWithoutMarker(raw: string)
    requires !Contains(raw, Marker)
    ensures ExtractRecommendations(raw) == NoFindings
  {
  }

  /** Appending text cannot move the first occurrence of a pattern that is already there. */
  lemma FindKeepsFirst(head: string, tail: string, pat: string, k: nat)
    requires Find(head, pat) == Some(k)
    ensures Find(head + tail, pat) == Some(k)
  {
    var whole := head + tail;
    assert whole[k..k + |pat|] == head[k..k + |pat|];
    forall i: nat | i < k
      ensures !OccursAt(whole, pat, i)
    {
      assert !OccursAt(head, pat, i);
      assert whole[i..i + |pat|] == head[i..i + |pat|];
    }
    var f := Find(whole, pat);
    assert OccursAt(whole, pat, k);
    assert f.Some? && f.value <= k;
  }

  /** No "\n-" starts inside `body` when `body` holds none and is followed by "\n-". */
  lemma DashInsideBody(raw: string, from: nat, body: string, q: nat)
    requires from + |body| + 2 <= |raw| && raw[from..from + |body|] == body
    requires raw[from + |body|] == '\n'
    requires NoDash(body)
    requires from <= q < from + |body|
    ensures !DashAt(raw, q)
  {
    var j := q - from;
    if q + 1 < from + |body| {
      assert raw[q] == body[j] && raw[q + 1] == body[j + 1];
      assert !DashAt(body, j);
    } else {
      assert raw[q + 1] == '\n';
    }
  }

  /** The lazy match ends right before the "\n-" that follows a body free of "\n-". */
  lemma StopAtDash(raw: string, from: nat, body: string)
    requires from + |body| + 2 <= |raw| && raw[from..from + |body|] == body
    requires raw[from + |body|] == '\n' && raw[from + |body| + 1] == '-'
    requires NoDash(body)
    ensures StopFrom(raw, from) == from + |body|
  {
    var e := from + |body|;
    assert StopsAt(raw, e);
    forall q: nat | from <= q < e
      ensures !StopsAt(raw, q)
    {
      DashInsideBody(raw, from, body, q);
    }
  }

  /** The documented example: the section "Recommendations for query: X" followed by a
      line starting with '-' yields exactly that section. */
  lemma ExtractionOfSection(pre: string, body: string, rest: string)
    requires Find(pre + Marker, Marker) == Some(|pre|)
    requires !Contains(body, "\n-")
    requires body == [] || !IsSpace(body[|body| - 1])
    ensures ExtractRecommendations(pre + Marker + body + "\n-" + rest) == Marker + body
  {
    var head := pre + Marker;
    var tail := body + "\n-" + rest;
    var raw := head + tail;
    assert raw == pre + Marker + body + "\n-" + rest;
    var s, e := |pre|, |head| + |body|;
    FindKeepsFirst(head, tail, Marker, s);
    SectionEnd(head, body, rest);
    assert s + |Marker| == |head|;
    assert raw[s..e] == Marker + body;
    ExtractionIsSlice(raw, s, e);
    SectionIsTrimmed(body);
  }

  lemma SectionEnd(head: string, body: string, rest: string)
    requires !Contains(body, "\n-")
    ensures StopFrom(head + (body + "\n-" + rest), |head|) == |head| + |body|
  {
    var raw := head + (body + "\n-" + rest);
    var e := |head| + |body|;
    assert raw[|head|..e] == body;
    assert raw[e] == '\n' && raw[e + 1] == '-';
    NoDashIsAbsence(body);
    StopAtDash(raw, |head|, body);
  }

  lemma SectionIsTrimmed(body: string)
    requires body == [] || !IsSpace(body[|body| - 1])
    ensures Strip(Marker + body) == Marker + body
  {
    MarkerShape();
    assert !IsSpace(Marker[0]) && !IsSpace(Marker[25]);
    TrimmedConcat(Marker, body);
  }

  lemma TrimmedConcat(head: string, body: string)
    requires head != [] && !IsSpace(head[0]) && !IsSpace(head[|head| - 1])
    requires body == [] || !IsSpace(body[|body| - 1])
    ensures Strip(head + body) == head + body
  {
    var section := head + body;
    assert section[0] == head[0];
    assert section[|section| - 1] == if body == [] then head[|head| - 1] else body[|body| - 1];
  }

  /** The log preview `query[:100] + ("..." if len(query) > 100 else "")`. */
  function QueryPreview(query: string): (r: string)
    ensures |query| <= PreviewLimit ==> r == query
    ensures |query| > PreviewLimit ==> r == query[..PreviewLimit] + "..."
    ensures |r| <= PreviewLimit + 3
  {
    var head := if |query| <= PreviewLimit then query else query[..PreviewLimit];
    head + (if |query| > PreviewLimit then "..." else "")
  }

  /** What `subprocess.run` of the recogniser came back with. */
  datatype JarRun =
    | Finished(exitCode: int, output: string)
    | TimedOut
    | Crashed(message: string)

  datatype Response =
    | Success(status: string, recommendations: string)
    | HttpError(statusCode: int, detail: string)

  /** The `/analyze` handler. A non-zero exit code is only logged. */
  function AnalyzeQuery(query: string, jarExists: bool, run: JarRun): (r: Response)
    ensures r.Success? <==> jarExists && run.Finished?
    ensures r.Success? ==> r.status == "success" && r.recommendations == ExtractRecommendations(run.output)
    ensures r.HttpError? ==> (r.statusCode == 504 <==> run.TimedOut? && jarExists)
    ensures r.HttpError? ==> (r.statusCode == 500 <==> !jarExists || run.Crashed?)
  {
    if !jarExists then HttpError(500, "JAR file not found.")
    else match run
      case TimedOut => HttpError(504, "Analysis timed out.")
      case Crashed(message) => HttpError(500, message)
      case Finished(_, output) => Success("success", ExtractRecommendations(output))
  }
}

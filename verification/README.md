# BigQuery query audit — a Dafny model

This project models the core of a BigQuery audit pipeline written in Python.
The pipeline has three parts:

- **The audit job** (`main-app/src/main.py`). It finds the regions where the
  customer's datasets live. In each region it collects storage-pricing
  proposals and worst-query rows, then ranks all jobs project-wide by
  scanned volume and by run time. It keeps the top `WORST_QUERY_LIMIT` of
  each ordering, without duplicates. For every selected query it gathers:
  - schema hints;
  - the findings of the anti-pattern service;
  - the matching entries of the anti-pattern dictionary.

  It asks the generative model for advice on each query and assembles a
  Markdown report. The report is uploaded and announced on a chat webhook.
- **The anti-pattern service** (`bq-antipattern-api/app.py`). It runs the
  recogniser on a query. It cuts the `Recommendations for query:` section
  out of the tool's output, or answers with an HTTP error.
- **The `.env` to `terraform.tfvars` converter** (`tools/generate_tfvars.py`).

There is one Dafny module per concern, each in its own file:

| file | module | models |
|---|---|---|
| `wrappers.dfy` | `Wrappers` | `Option` |
| `text.dfy` | `Text` | the Python `str` operations used: `in`, `strip()`, `strip(ch)`, `rstrip(ch)`, `lower()`, `join`, `" " * n`, `str(n)`, and the leftmost-match search that `re.search` performs |
| `time_window.dfy` | `TimeWindow` | `get_time_range_expressions` |
| `regions.dfy` | `Regions` | `get_active_regions` (a loop, as a method, proved against `RegionSet`) |
| `schema.dfy` | `Schema` | `get_query_schema_info` (a loop, as a method, proved against `SchemaText`); the table lookup is a function parameter |
| `dictionary.dfy` | `Dictionary` | `extract_relevant_dictionary` |
| `analyzer_service.dfy` | `AnalyzerService` | the `/analyze` handler: the regex extraction, `strip`, the sentinel, the 100-character log preview and the 500/504 mapping |
| `analyzer_client.dfy` | `AnalyzerClient` | `analyze_with_bq_antipattern_analyzer`: endpoint building and reply handling |
| `prompt.dfy` | `Prompt` | the values `build_gemini_prompt` substitutes, and its fallback |
| `jobs.dfy` | `Jobs` | job rows, the two sort keys, and Python's stable `sorted(..., reverse=True)` with an independent position characterisation |
| `ranking.dfy` | `Ranking` | the `job_ranks` loops and the dictionary merge of the two top lists |
| `report.dfy` | `Report` | collecting by region, storage section, job sections, upload link and notification text |
| `audit.dfy` | `Audit` | one run of `main`, from the configuration check to the chat message |
| `tfvars.dfy` | `Tfvars` | `generate_tfvars`: line parser, aligned writer, missing-file case |

Modelling choices:

- Loops in the source are methods with loop invariants. Each method is
  proved equal to a specification function, and the properties are lemmas
  about that function.
- A Python `dict` filled in a loop is modelled as its insertion order beside
  its contents.
- Iterating over a Python `set` is modelled as the choice of any
  not-yet-visited element. A ghost output records the order that was chosen.
- Every outside call is a parameter that gives its outcome. This covers
  BigQuery, the storage analysis, the anti-pattern HTTP call, the
  generative model, the storage upload and the webhook.

## Model

| member | source | states |
|---|---|---|
| `Text.Find` | bq-antipattern-api/app.py:52 | where `re.search` starts its leftmost match of the literal marker, i.e. the first occurrence of the pattern: present exactly when the pattern occurs, occurring there and at no earlier index |
| `Text.Strip` | tools/generate_tfvars.py:25 | `strip()`: the result is a contiguous slice of the input preceded and followed only by white space, and has no white space at either end, which fixes it uniquely; a string already trimmed is returned unchanged |
| `Text.StripChar` | tools/generate_tfvars.py:38 | `strip(ch)`: the result is a contiguous slice of the input preceded and followed only by `ch`, and neither starts nor ends with `ch`; a string that does not start or end with `ch` is returned unchanged |
| `Text.RStripChar` | main-app/src/main.py:124 | `rstrip('/')`: the result is a prefix of the input, does not end in the character, and every dropped character is that character |
| `Text.Lower` | main-app/src/main.py:78 | `lower()` keeps the length and maps every character through the ASCII case mapping |
| `Text.LowerIsLower` | main-app/src/main.py:78 | a lower-cased string has no upper-case letter, and lower-casing such a string changes nothing |
| `Text.JoinContains` | main-app/src/main.py:184 | a pattern that occurs in one part occurs in the joined text |
| `Text.NatToString` | main-app/src/main.py:457 | `str(n)` for the counters of the job headers: a non-empty string of decimal digits |
| `Text.NatToStringReadsBack` | main-app/src/main.py:457 | those digits read back, most significant first, as `n`, and only `0` itself starts with `0` |
| `TimeWindow.TimeRange` | main-app/src/main.py:84-99 | the start and end expressions: interval first, then explicit start (with an end condition only when an end is also set), else one day; its properties are the four lemmas below |
| `TimeWindow.IntervalTakesPriority` | main-app/src/main.py:86-88 | with an interval given, the start and end settings are ignored and there is no end condition |
| `TimeWindow.EndClauseIff` | main-app/src/main.py:89-94 | an end condition appears exactly when there is no interval but a start and an end are both given, and it begins with `AND creation_time <= ` |
| `TimeWindow.EndNeedsStart` | main-app/src/main.py:89-98 | an end setting without a start setting has no effect |
| `TimeWindow.DefaultIsOneDay` | main-app/src/main.py:95-98 | with neither interval nor start given, the window equals an explicit `1 DAY` interval |
| `Regions.RegionSet` | main-app/src/main.py:69-82 | the set of lower-cased dataset locations, or the empty set when the listing or a lookup failed; `ActiveRegions` is proved equal to it and the three lemmas below characterise it |
| `Regions.ActiveRegions` | main-app/src/main.py:69-82 | the loop returns the lower-cased locations of the datasets, or the empty set when the listing or any lookup failed |
| `Regions.RegionsAreLocations` | main-app/src/main.py:75-78 | every region is the lower-cased location of a listed dataset that reports one, and has no upper-case letter |
| `Regions.LocationsAreRegions` | main-app/src/main.py:75-79 | when nothing failed, every reported location, lower-cased, is a region |
| `Regions.FailureEmptiesSet` | main-app/src/main.py:80-82 | one failed dataset lookup empties the whole result |
| `Schema.SchemaText` | main-app/src/main.py:143-190 | the blocks of the complete references joined by blank lines, or the sentinel; `SchemaInfo` is proved equal to it, and `BlocksFollowReferences` and `SentinelIffNothingUsable` state its properties |
| `Schema.BlockFor` | main-app/src/main.py:166-188 | a usable reference gives a block starting with the table label; a failed lookup gives the degraded block naming the table id |
| `Schema.SchemaInfo` | main-app/src/main.py:143-190 | the loop returns the blocks of the complete references joined by blank lines, or the sentinel when there are none |
| `Schema.BlocksFollowReferences` | main-app/src/main.py:151-164 | one block per reference that names a project, a dataset and a table, in reference order; incomplete references are skipped |
| `Schema.SentinelIffNothingUsable` | main-app/src/main.py:148-149 | the sentinel is returned exactly when no reference is complete (an empty list included); otherwise the text starts with a table label |
| `Schema.PartitionDefaultShown` | main-app/src/main.py:171-173 | a time-partitioned table without a partition field is described with `_PARTITIONTIME` |
| `Dictionary.ExtractRelevant` | main-app/src/main.py:254-260 | the sentinel for empty text or an empty dictionary, else the blocks whose names occur in the text joined by blank lines, else the sentinel; `SentinelIff`, `HitIsKept` and `NoHitNothingKept` state its properties |
| `Dictionary.RelevantMatchesHits` | main-app/src/main.py:259 | one kept block per pattern name occurring in the text, paired with that name in the dictionary, in dictionary order |
| `Dictionary.HitIsKept` | main-app/src/main.py:259 | an entry whose name occurs in the text contributes its block |
| `Dictionary.NoHitNothingKept` | main-app/src/main.py:259 | when no name occurs in the text, nothing is kept |
| `Dictionary.SentinelIff` | main-app/src/main.py:254-260 | for dictionary blocks starting with `■`, the result is `特になし` exactly when the text is empty or no pattern name occurs in it |
| `AnalyzerService.MatchSection` | bq-antipattern-api/app.py:52 | the text `re.search` matches: from the first marker up to the stop position of `StopFrom`, or no match without a marker |
| `AnalyzerService.ExtractRecommendations` | bq-antipattern-api/app.py:50-60 | the matched text stripped, or `No anti-patterns found.`; `ExtractionOnMatch`, `ExtractionWithoutMarker` and `ExtractionOfSection` state its properties |
| `AnalyzerService.StopFrom` | bq-antipattern-api/app.py:52 | the lazy `.*?` ends at the first position where `\n-` follows or `$` matches |
| `AnalyzerService.ExtractionOnMatch` | bq-antipattern-api/app.py:52-57 | with the marker in the output, the result starts with the marker, contains no `\n-` and is trimmed |
| `AnalyzerService.ExtractionWithoutMarker` | bq-antipattern-api/app.py:58-60 | without the marker, the result is `No anti-patterns found.` |
| `AnalyzerService.ExtractionOfSection` | bq-antipattern-api/app.py:50-56 | a marker followed by a body free of `\n-` and then a line starting with `-` yields exactly the marker and the body |
| `AnalyzerService.FindKeepsFirst` | bq-antipattern-api/app.py:52 | appending text does not move the first occurrence of the marker |
| `AnalyzerService.QueryPreview` | bq-antipattern-api/app.py:24 | a query of at most 100 characters is logged whole; a longer one as its first 100 characters followed by `...`; never more than 103 |
| `AnalyzerService.AnalyzeQuery` | bq-antipattern-api/app.py:21-74 | success exactly when the JAR exists and the run finished, with the extracted recommendations; 504 exactly on a timeout; 500 for a missing JAR or a crash; a non-zero exit code still succeeds |
| `AnalyzerClient.AnalyzerText` | main-app/src/main.py:118-141 | the skip notice without a URL, the failure notice when the call fails, else the reply's `recommendations` (empty if absent); `SkipWithoutUrl`, `OnlyEndpointReplyMatters` and `ClientSeesService` state its properties |
| `AnalyzerClient.Endpoint` | main-app/src/main.py:124 | the endpoint ends in `/analyze`, and its base is the URL without its trailing slashes |
| `AnalyzerClient.EndpointIgnoresTrailingSlash` | main-app/src/main.py:124 | a trailing slash on the configured URL does not change the endpoint |
| `AnalyzerClient.SkipWithoutUrl` | main-app/src/main.py:120-122 | without a URL, nothing is sent and the skip notice is returned |
| `AnalyzerClient.OnlyEndpointReplyMatters` | main-app/src/main.py:124-137 | with a URL, the result depends only on the reply for this endpoint and query |
| `AnalyzerClient.ClientSeesService` | main-app/src/main.py:134-141 | end to end with the service: the extracted recommendations when the recogniser ran, the failure notice otherwise, and never empty text |
| `Prompt.PromptParams` | main-app/src/main.py:266-276 | the nine template values, with 0 for a missing billed volume, duration or slot time; `PromptFiguresAreSortKeys` ties them to the ranking keys |
| `Prompt.BuildPrompt` | main-app/src/main.py:262-282 | the filled template, or `Analyze this SQL: ` and the query when the template fails; `QueryAlwaysSent` states its property |
| `Prompt.PromptFiguresAreSortKeys` | main-app/src/main.py:267-268 | the figures in the prompt use the same zero defaults as the ranking keys |
| `Prompt.QueryAlwaysSent` | main-app/src/main.py:262-282 | the query reaches the model either as a template value beside the schema, findings and dictionary text, or after the fixed lead of the fallback; the fallback happens exactly when the template fails |
| `Jobs.Key` | main-app/src/main.py:397-398 | the two sort keys, billed volume and duration, with a missing value read as 0 |
| `Jobs.SortDesc` | main-app/src/main.py:397-398 | `sorted(..., reverse=True)` by a key: a permutation of the input of the same length; its order is stated by the three lemmas below |
| `Jobs.SortPlacesAtPosition` | main-app/src/main.py:397-398 | the stable descending sort puts each job at its characterised position |
| `Jobs.PositionOrder` | main-app/src/main.py:397-398 | one job precedes another exactly when its key is greater, or the keys tie and it came first in the input |
| `Jobs.SortDescDescending` | main-app/src/main.py:397-398 | the sorted list is in descending key order |
| `Ranking.RankMap` | main-app/src/main.py:397-404 | each id's last 1-based place in each sorted list; `ComputeRanks` is proved equal to it, and `RanksRecorded`, `RanksInRange`, `RankIsPosition` and `RanksArePermutation` state its properties |
| `Ranking.ComputeRanks` | main-app/src/main.py:397-404 | the two loops produce the rank map: each id's last 1-based place in each ordering |
| `Ranking.RecordCostRanks` | main-app/src/main.py:399-402 | every id of the cost ordering gets an entry holding its last place by cost and no duration rank |
| `Ranking.RecordDurationRanks` | main-app/src/main.py:403-404 | each entry gets its last place by duration; no key is added or lost |
| `Ranking.RanksRecorded` | main-app/src/main.py:397-404 | exactly the ids of the merged list are recorded, each with both ranks between 1 and the number of jobs |
| `Ranking.LastPlaceFacts` | main-app/src/main.py:399-404 | a rank exists exactly when the id occurs, and no later element carries the id (a later write wins) |
| `Ranking.RanksInRange` | main-app/src/main.py:399-404 | every job gets both ranks between 1 and N, never before its own sorted position |
| `Ranking.RankIsPosition` | main-app/src/main.py:397-404 | with unique ids, a job's rank is its place in the stable descending order, plus one |
| `Ranking.RanksArePermutation` | main-app/src/main.py:399-404 | with unique ids, rank `k + 1` belongs to the job sorted into place `k`, so the ranks are a permutation of 1..N |
| `Ranking.RanksDistinct` | main-app/src/main.py:399-404 | two different ids never share a rank |
| `Ranking.Head` | main-app/src/main.py:408-409 | Python's `[:k]`: a prefix of length `min(k, N)`, or `N + k` (at least 0) for a negative `k` |
| `Ranking.MergeTop` | main-app/src/main.py:412-414 | the merge loop leaves the ids in first-insertion order, and each id holds its latest record |
| `Ranking.Selection` | main-app/src/main.py:408-416 | the two heads concatenated, deduplicated by id in first-insertion order, each id with its latest record; `SelectWorst` is proved equal to it and the `Selection...` lemmas state its properties |
| `Ranking.SelectWorst` | main-app/src/main.py:408-416 | the selected list equals the selection specification |
| `Ranking.DedupFacts` | main-app/src/main.py:412-416 | the key order keeps every id once and nothing else |
| `Ranking.SelectionUnique` | main-app/src/main.py:412-416 | no job id is selected twice |
| `Ranking.SelectionFromMerged` | main-app/src/main.py:408-416 | every selected job is a job of the merged list |
| `Ranking.SelectionBounded` | main-app/src/main.py:408-416 | at most twice the limit are selected |
| `Ranking.SelectionEmptyIff` | main-app/src/main.py:408-416 | the selection is empty exactly when no job was merged, the limit is 0, or a negative limit cuts every job away |
| `Ranking.SelectionOrder` | main-app/src/main.py:408-416 | the ids of the top jobs by cost come first, then those of the top jobs by duration not already listed, each in sorted order |
| `Ranking.SelectionKeepsTopCost` | main-app/src/main.py:408-416 | with unique ids, the top jobs by cost are all selected, first and in order, so at least `min(limit, N)` jobs are selected |
| `Ranking.SelectionKeepsLaterRecord` | main-app/src/main.py:413-414 | each selected record is the last one with its id in `worst_by_billed + worst_by_duration` |
| `Report.Header` | main-app/src/main.py:360-364 | the title, project line, timestamp line and rule that open every report; `ReportOpensWithTitle` states it |
| `Report.CollectRegions` | main-app/src/main.py:370-391 | the loop visits every region once, in some order of the set, and yields the merged rows and the accepted proposals of that order |
| `Report.StorageSentinelsRejected` | main-app/src/main.py:373 | the filter rejects both the "no data" answer and the failure answer of the storage analysis (lines 208 and 225) |
| `Report.ProposalsOfAcceptedRegions` | main-app/src/main.py:372-374 | the proposals are exactly the entries of the regions whose answer passes the filter; there is at least one exactly when some answer passes |
| `Report.JobsFromRegions` | main-app/src/main.py:386-391 | the merged list holds exactly the rows of the regions whose query succeeded; a failed region contributes nothing |
| `Report.JobSection` | main-app/src/main.py:457-467 | the four lines of an answered job: header with `i/N` and the id, rank block, model text and rule; `AnsweredSection` and `SelectedJobsShowRanks` state its properties |
| `Report.SectionOf` | main-app/src/main.py:454-469 | a job whose model call succeeded adds four lines; a failed call adds none |
| `Report.AnalyzeJobs` | main-app/src/main.py:441-469 | the loop appends, for each selected job in order, its section built from the schema, findings, dictionary and prompt |
| `Report.SectionsLayout` | main-app/src/main.py:441-469 | the job sections are four lines per answered job, and the `m`-th four lines are the section of the `m`-th answered job |
| `Report.FlattenLayout` | main-app/src/main.py:457-467 | with each block empty or four lines long, the `m`-th four lines are the `m`-th non-empty block |
| `Report.AnsweredFacts` | main-app/src/main.py:454-469 | the answered indices are exactly the jobs whose model call succeeded, in increasing order |
| `Report.AnsweredSection` | main-app/src/main.py:457-467 | an answered section holds the header with `i/N` and the job id, the rank block, the model's text and a rule |
| `Report.SelectedJobsShowRanks` | main-app/src/main.py:460-463 | a selected job always shows both ranks as numbers, never `-` |
| `Report.Upload` | main-app/src/main.py:284-304 | no link without a bucket or when storing failed, else the console link to `bq_audit_report_<project>_<timestamp>.md`; `NoticeFollowsUpload` states its properties |
| `Report.SlackPost` | main-app/src/main.py:306-315 | the message is posted exactly when a webhook is set; `NotificationRules` states when a run sends one |
| `Report.Notice` | main-app/src/main.py:433-434 | a notice exists exactly when there is a link or jobs were analysed |
| `Report.NoticeFollowsUpload` | main-app/src/main.py:284-304 | a link exists exactly when a bucket is set and storing succeeded, and it names the report file; the notice carries the link, or the missing-upload text only when jobs were analysed |
| `Audit.ReportLines` | main-app/src/main.py:419-469 | header, storage section, then the "not found" line or the count line and the job sections; `AssembleReport` is proved equal to it and `ReportHead`, `StorageSectionIff` and `ReportSize` state its properties |
| `Audit.Finish` | main-app/src/main.py:393-478 | ranking, selection, report text, upload link and notification of a configured run; `Publish` is proved equal to it |
| `Audit.AuditOutcome` | main-app/src/main.py:322-478 | the outcome of a run for one visiting order of the regions: the three early exits, else `Finish`; `RunAudit`, `RunEndsEarly` and `NotificationRules` state its properties |
| `Audit.RankAndSelect` | main-app/src/main.py:394-416 | the rank map and the selection, both empty when no job was found |
| `Audit.AssembleReport` | main-app/src/main.py:419-469 | the report lines: header, storage section if any, then the "not found" line, or the count line and the job sections |
| `Audit.Publish` | main-app/src/main.py:393-478 | steps 2 to 7 give the report text, the upload link and the webhook message of the specification |
| `Audit.RunAudit` | main-app/src/main.py:322-478 | the whole run: its outcome is the one the order of visiting the regions determines, and that order enumerates the region set |
| `Audit.RunEndsEarly` | main-app/src/main.py:323-355 | the run stops without a report exactly when a project setting is missing, the templates cannot be read, or no region is found |
| `Audit.ReportOpensWithTitle` | main-app/src/main.py:360-364 | every report begins with the four header lines, and its text starts with the title |
| `Audit.StorageSectionIff` | main-app/src/main.py:419-425 | the storage title is the fifth line exactly when some region's storage answer passed the filter |
| `Audit.ReportHead` | main-app/src/main.py:419-438 | the fifth line is the storage title, or else the "not found" line or the count line |
| `Audit.ReportSize` | main-app/src/main.py:427-469 | with no jobs the report ends with the "not found" line; otherwise it has the count line followed by four lines per answered job |
| `Audit.NotificationRules` | main-app/src/main.py:428-435 | only a configured webhook receives a message; with jobs analysed there is always one (link or missing upload); without jobs only when there is a link |
| `Audit.SelectedCount` | main-app/src/main.py:408-416 | with jobs found and a limit of at least 1, between 1 and twice the limit jobs are analysed, each with both ranks recorded |
| `Tfvars.GenerateTfvars` | tools/generate_tfvars.py:6-51 | a missing env file writes nothing; otherwise the written lines are the rendering of the parsed pairs |
| `Tfvars.ReadPairs` | tools/generate_tfvars.py:20-42 | the reading loop yields the pairs of the parsed lines, in order, and the length of the longest key |
| `Tfvars.WriteLines` | tools/generate_tfvars.py:45-49 | the writing loop produces one padded line per pair |
| `Tfvars.IndexOf` | tools/generate_tfvars.py:31-33 | the first index of a character: absent exactly when the character does not occur, and no earlier index holds it |
| `Tfvars.BeforeComment` | tools/generate_tfvars.py:33 | `split('#')[0]`: a prefix without `#`, ending right before the first `#` if there is one |
| `Tfvars.SplitPair` | tools/generate_tfvars.py:33-35 | a pair exists exactly when the text has an `=` |
| `Tfvars.MaxKeyLenIsMax` | tools/generate_tfvars.py:41-42 | `max_key_len` is the length of the longest key, and 0 without pairs |
| `Tfvars.ParseLine` | tools/generate_tfvars.py:24-38 | strip, skip blank and comment lines and lines without `=`, cut the comment and split at the first `=`; `ParseLineIff`, `SplitAtFirstEquals`, `ParsedShape` and `CommentIgnored` state its properties |
| `Tfvars.ParseLineIff` | tools/generate_tfvars.py:24-35 | a line yields a pair exactly when, once trimmed, it is not empty, does not start with `#`, and has an `=` before its first `#` |
| `Tfvars.SplitAtFirstEquals` | tools/generate_tfvars.py:33-38 | the split is at the first `=`: the key is the text before it, trimmed and lower-cased; the value is the rest, trimmed and unquoted |
| `Tfvars.PairShape` | tools/generate_tfvars.py:37-38 | keys come out lower case, and a value has no `#` when the split text has none |
| `Tfvars.ParsedShape` | tools/generate_tfvars.py:33-38 | every parsed pair has a lower-case key and a value without `#` |
| `Tfvars.CommentIgnored` | tools/generate_tfvars.py:31-33 | appending a comment to a trimmed line changes nothing, and an `=` that appears only in the comment makes no pair |
| `Tfvars.RenderLine` | tools/generate_tfvars.py:48-49 | one written line: key, padding to the width, ` = "`, value, `"` and a newline |
| `Tfvars.Render` | tools/generate_tfvars.py:45-49 | one line per pair, all padded to the longest key; `RenderAligned` and `RoundTrip` state its properties |
| `Tfvars.RenderAligned` | tools/generate_tfvars.py:45-49 | each output line starts with its key, is padded with spaces to the longest key, has ` = "` at that column, then the value and `"` plus a newline |
| `Tfvars.RoundTrip` | tools/generate_tfvars.py:20-49 | parsing a written line gives the pair back, for keys that are non-empty, lower case, trimmed and free of `=` and `#`, and values without `#` and without a quote at either end |

## Left out

- Outside services appear only as the outcomes they produce: BigQuery queries and metadata, the storage-analysis SQL, the anti-pattern HTTP call and its identity token (including the token cache), Vertex AI generation, the storage upload and the webhook POST.
- The recogniser itself (`java -jar ...`) is not modelled. The service receives its outcome: finished with output, timed out, or crashed.
- Reading the SQL and prompt templates and filling them with `str.format` are not modelled. A prompt is the record of the values given to the template. The worst-ranking SQL receives the search parameters as one record.
- The storage table of `analyze_storage_pricing` (`:.2f` floats) is not modelled. A storage answer is an opaque string, and only the two sentinel answers are named.
- Loading the master dictionary is not modelled. Its `■`-prefixed block shape appears only as a precondition of `Dictionary.SentinelIff`.
- The clock, the `K_SERVICE` environment check and the analyzer e-mail lookup are left out. Timestamps and the e-mail are inputs.
- Logging is left out, so a non-zero exit code of the recogniser has no visible effect.
- The outer `try` of `get_query_schema_info` (lines 192-194) is not modelled. The loop body only calls the lookup, which is a total function here, so nothing else can raise.
- A JSON `null` in the analyzer reply's `recommendations` field is not modelled. A missing field becomes `""`.
- Converting `WORST_QUERY_LIMIT` with `int()` is not modelled. The limit is an integer input, and negative limits follow Python slicing.
- `Text.Lower`: only ASCII letters are mapped. Python's `lower()` also maps non-ASCII letters. This matters in two places: BigQuery locations (main-app/src/main.py:78), which never hold such letters, and the env-file keys (`Tfvars.KeyText`, tools/generate_tfvars.py:37), which are assumed to be ASCII.
- Visiting a Python `set` in its hash order is modelled as a nondeterministic choice of the next region. The properties hold for every order.
- Webhook delivery failures (lines 311-315) are only logged, so they are not modelled.
- Reading the env file and splitting it into lines is I/O. The converter receives the sequence of lines, and its `print` messages are left out.
- `Tfvars.RoundTrip`: a value holding a newline would be split into two lines when the file is read back. The lemma applies the parser to the whole written line, so it does not state this.
- Two behaviours of the code worth noting, modelled as written:
  - For a `job_id` that occurs twice in the merged list, the later occurrence's rank overwrites the earlier one (lines 399-404).
  - When no jobs were found, the chat message is sent only if the upload gave a link (lines 432-434).

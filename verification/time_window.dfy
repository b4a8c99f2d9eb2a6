/**
 * The period the worst-query search covers (`get_time_range_expressions` in
 * main-app/src/main.py): two SQL fragments built from three optional
 * settings, where an unset or empty setting counts as absent.
 */
module TimeWindow {
  import opened Wrappers
  import opened Text

  /** `TIME_RANGE_INTERVAL`, `TIME_RANGE_START` and `TIME_RANGE_END`. */
  datatype Settings = Settings(interval: Option<string>, start: Option<string>, end: Option<string>)

  /** The start expression and the (possibly empty) extra end condition. */
  datatype Window = Window(startExpr: string, endExpr: string)

  function IntervalStart(interval: string): string {
    "TIMESTAMP_SUB(CURRENT_TIMESTAMP(), INTERVAL " + interval + ")"
  }

  const DefaultStart := "TIMESTAMP_SUB(CURRENT_TIMESTAMP(), INTERVAL 1 DAY)"

  function TimeRange(cfg: Settings): Window {
    if Given(cfg.interval) then
      Window(IntervalStart(cfg.interval.value), "")
    else if Given(cfg.start) then
      Window("TIMESTAMP('" + cfg.start.value + "')",
             if Given(cfg.end) then "AND creation_time <= TIMESTAMP('" + cfg.end.value + "')" else "")
    else
      Window(DefaultStart, "")
  }

  /** A given interval takes priority: start and end settings are then ignored. */
  lemma IntervalTakesPriority(cfg: Settings, start: Option<string>, end: Option<string>)
    requires Given(cfg.interval)
    ensures TimeRange(cfg) == TimeRange(Settings(cfg.interval, start, end))
    ensures TimeRange(cfg).endExpr == ""
  {
  }

  /** An end condition appears exactly when no interval is given but both a start and an end are. */
  lemma EndClauseIff(cfg: Settings)
    ensures TimeRange(cfg).endExpr != "" <==> !Given(cfg.interval) && Given(cfg.start) && Given(cfg.end)
    ensures TimeRange(cfg).endExpr != "" ==> StartsWith(TimeRange(cfg).endExpr, "AND creation_time <= ")
  {
    if TimeRange(cfg).endExpr != "" {
      var pre := "AND creation_time <= ";
      assert TimeRange(cfg).endExpr == pre + ("TIMESTAMP('" + cfg.end.value + "')");
      assert TimeRange(cfg).endExpr[..|pre|] == pre;
    }
  }

  /** An end setting without a start setting is ignored. */
  lemma EndNeedsStart(cfg: Settings, end: Option<string>)
    requires !Given(cfg.start)
    ensures TimeRange(cfg) == TimeRange(Settings(cfg.interval, cfg.start, end))
  {
  }

  /** With nothing given the window is the same as an explicit interval of `1 DAY`. */
  lemma DefaultIsOneDay(cfg: Settings)
    requires !Given(cfg.interval) && !Given(cfg.start)
    ensures TimeRange(cfg) == TimeRange(Settings(Some("1 DAY"), None, None))
  {
    assert IntervalStart("1 DAY") == DefaultStart;
  }
}

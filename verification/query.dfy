/**
 The read side of guide-click analytics: the query-parameter clamps of
 `/analytics/top-guides` and `/analytics/popular`, the per-guide totals that
 `top_guides_simple` computes on the SQLite engine, the ranking by total capped at
 `limit`, and the catalog filter the popular endpoint applies to the ranked rows.

 With the daily table present a guide's total is its summed daily clicks on days
 inside the window plus its raw rows of the last two UTC days that are also inside
 the window (`UNION ALL`, then `SUM`); without it, the total is the raw row count
 inside the window.
 */
module Query {
  import opened Common
  import opened Store
  import opened Rollup
  import opened Catalog

  /** `max(lo, min(v, hi))` with `lo` = 1. */
  function Clamp(v: int, hi: int): (r: int)
    requires hi >= 1
    ensures 1 <= r <= hi
    ensures 1 <= v <= hi ==> r == v
    ensures v < 1 ==> r == 1
    ensures v > hi ==> r == hi
  {
    if v < 1 then 1 else if v > hi then hi else v
  }

  /** `request.args.get(name, default, type=int)`: the parsed value, or the
      default when the argument is missing or does not parse as an integer. */
  function ArgOr(arg: Option<int>, default: int): (r: int)
    ensures arg.None? ==> r == default
    ensures arg.Some? ==> r == arg.value
  {
    if arg.Some? then arg.value else default
  }

  /** The clamped `days` and `limit` of an endpoint. */
  datatype Window = Window(days: int, limit: int)

  /** `top_guides()`: `days` defaults to 7 and is kept in [1, 365], `limit`
      defaults to 10 and is kept in [1, 100]. */
  function TopGuidesWindow(daysArg: Option<int>, limitArg: Option<int>): (w: Window)
    ensures 1 <= w.days <= 365 && 1 <= w.limit <= 100
    ensures daysArg.None? ==> w.days == 7
    ensures limitArg.None? ==> w.limit == 10
    ensures daysArg.Some? && 1 <= daysArg.value <= 365 ==> w.days == daysArg.value
    ensures limitArg.Some? && 1 <= limitArg.value <= 100 ==> w.limit == limitArg.value
  {
    Window(Clamp(ArgOr(daysArg, 7), 365), Clamp(ArgOr(limitArg, 10), 100))
  }

  /** `popular_guides_api()`: `days` defaults to 30 and is kept in [1, 365],
      `limit` defaults to 5 and is kept in [1, 20]. */
  function PopularWindow(daysArg: Option<int>, limitArg: Option<int>): (w: Window)
    ensures 1 <= w.days <= 365 && 1 <= w.limit <= 20
    ensures daysArg.None? ==> w.days == 30
    ensures limitArg.None? ==> w.limit == 5
    ensures daysArg.Some? && 1 <= daysArg.value <= 365 ==> w.days == daysArg.value
    ensures limitArg.Some? && 1 <= limitArg.value <= 20 ==> w.limit == limitArg.value
  {
    Window(Clamp(ArgOr(daysArg, 30), 365), Clamp(ArgOr(limitArg, 5), 20))
  }

  /** A guide's value in a totals map, 0 when it has no row. */
  function TotalOf(m: map<string, nat>, g: string): nat {
    if g in m then m[g] else 0
  }

  // ---------------------------------------------------------------------------
  // The daily part: SUM(clicks) of a guide's daily rows with day >= start.

  /** Sum of `DailyGet(daily, (d, g))` over the days `d` in `days`. */
  ghost function DaySum(daily: Daily, g: string, days: set<int>): nat
    decreases days
  {
    if days == {} then 0
    else
      SomeDay(days);
      var d :| d in days;
      DailyGet(daily, (d, g)) + DaySum(daily, g, days - {d})
  }

  lemma SomeDay(days: set<int>)
    requires days != {}
    ensures exists d :: d in days
  {
    if forall d :: d !in days {
      assert false;
    }
  }

  /** The sum does not depend on which day the definition picks first. */
  lemma DaySumRemove(daily: Daily, g: string, days: set<int>, d: int)
    requires d in days
    ensures DaySum(daily, g, days) == DailyGet(daily, (d, g)) + DaySum(daily, g, days - {d})
    decreases days
  {
    var e :| e in days && DaySum(daily, g, days) == DailyGet(daily, (e, g)) + DaySum(daily, g, days - {e});
    if e != d {
      DaySumRemove(daily, g, days - {e}, d);
      DaySumRemove(daily, g, days - {d}, e);
      assert days - {e} - {d} == days - {d} - {e};
    }
  }

  /** Two tables that agree on guide `g` for the days in `days` give equal sums. */
  lemma {:induction false} DaySumFrame(a: Daily, b: Daily, g: string, days: set<int>)
    requires forall d :: d in days ==> DailyGet(a, (d, g)) == DailyGet(b, (d, g))
    ensures DaySum(a, g, days) == DaySum(b, g, days)
    decreases days
  {
    if days != {} {
      SomeDay(days);
      var d :| d in days;
      DaySumRemove(a, g, days, d);
      DaySumRemove(b, g, days, d);
      DaySumFrame(a, b, g, days - {d});
    }
  }

  /** The days on or after `start` on which `g` has a daily row. */
  function WindowDays(daily: Daily, g: string, start: int): set<int> {
    set k | k in daily && k.0 >= start && k.1 == g :: k.0
  }

  /** `SUM(clicks) ... WHERE day >= start GROUP BY guide_id` for guide `g`. */
  ghost function DailyWindowSum(daily: Daily, g: string, start: int): nat {
    DaySum(daily, g, WindowDays(daily, g, start))
  }

  /** The guides with at least one daily row on or after `start`. */
  function DailyWindowGuides(daily: Daily, start: int): set<string> {
    set k | k in daily && k.0 >= start :: k.1
  }

  // ---------------------------------------------------------------------------
  // The raw part.

  /** Raw rows of `g` dated on or after `fromDay` and stamped at or after `since`. */
  function RecentCount(raw: seq<Click>, g: string, fromDay: int, since: int): nat
    decreases |raw|
  {
    if |raw| == 0 then 0
    else
      var c := raw[|raw| - 1];
      RecentCount(raw[..|raw| - 1], g, fromDay, since)
        + (if c.guideId == g && DayOf(c.ts) >= fromDay && c.ts >= since then 1 else 0)
  }

  /** The guides with a raw row dated on or after `fromDay` and stamped at or after `since`. */
  function RecentGuides(raw: seq<Click>, fromDay: int, since: int): set<string> {
    set i | 0 <= i < |raw| && DayOf(raw[i].ts) >= fromDay && raw[i].ts >= since :: raw[i].guideId
  }

  /** The instant `days` days before `now`: `datetime.now(timezone.utc) - timedelta(days=days)`. */
  function Since(now: int, days: int): int {
    now - days * SecondsPerDay
  }

  /** The first day of the daily window, `date('now', '-N day')`. */
  function DailyStart(now: int, days: int): int {
    DayOf(now) - days
  }

  /** The first day of the raw part, `date('now', '-2 days')`. */
  function RawStart(now: int): int {
    DayOf(now) - 2
  }

  /** What the summary query's `combined_data` sums to, per guide. */
  ghost function SummaryTotals(db: Db, now: int, days: int): (m: map<string, nat>)
    ensures m.Keys == DailyWindowGuides(db.daily, DailyStart(now, days))
                      + RecentGuides(db.raw, RawStart(now), Since(now, days))
  {
    map g | g in DailyWindowGuides(db.daily, DailyStart(now, days))
                 + RecentGuides(db.raw, RawStart(now), Since(now, days)) ::
      DailyWindowSum(db.daily, g, DailyStart(now, days)) + RecentCount(db.raw, g, RawStart(now), Since(now, days))
  }

  /** The days of the keys in `keys` that belong to guide `g`. */
  function DaysOf(keys: set<(int, string)>, g: string): set<int> {
    set k | k in keys && k.1 == g :: k.0
  }

  /** The daily sums of the guides whose daily rows among `done` are summed so far. */
  ghost predicate PartialSums(daily: Daily, start: int, done: set<(int, string)>, part: map<string, nat>) {
    && part.Keys == (set k | k in done :: k.1)
    && forall g :: TotalOf(part, g) == DaySum(daily, g, DaysOf(done, g))
  }

  /** `SELECT guide_id, SUM(clicks) FROM guide_clicks_daily WHERE day >= start GROUP BY guide_id`. */
  method SumDailyWindow(daily: Daily, start: int) returns (part: map<string, nat>)
    ensures part.Keys == DailyWindowGuides(daily, start)
    ensures forall g :: TotalOf(part, g) == DailyWindowSum(daily, g, start)
  {
    var window := set k | k in daily && k.0 >= start;
    var todo := window;
    ghost var done: set<(int, string)> := {};
    part := map[];
    DaySumEmpty(daily);
    while todo != {}
      invariant todo !! done && todo + done == window
      invariant PartialSums(daily, start, done, part)
      decreases |todo|
    {
      var k :| k in todo;
      SumStep(daily, start, done, part, k);
      part := part[k.1 := TotalOf(part, k.1) + daily[k]];
      todo := todo - {k};
      done := done + {k};
    }
    WindowSums(daily, start, done, part);
  }

  lemma DaySumEmpty(daily: Daily)
    ensures PartialSums(daily, 0, {}, map[])
  {
    forall g ensures TotalOf(map[], g) == DaySum(daily, g, DaysOf({}, g)) {
      assert DaysOf({}, g) == {};
    }
  }

  /** Adding one more daily row to the partial sums. */
  lemma SumStep(daily: Daily, start: int, done: set<(int, string)>, part: map<string, nat>, k: (int, string))
    requires k in daily && k !in done
    requires PartialSums(daily, start, done, part)
    ensures PartialSums(daily, start, done + {k}, part[k.1 := TotalOf(part, k.1) + daily[k]])
  {
    var part' := part[k.1 := TotalOf(part, k.1) + daily[k]];
    var done' := done + {k};
    assert part'.Keys == (set j | j in done' :: j.1);
    forall g ensures TotalOf(part', g) == DaySum(daily, g, DaysOf(done', g)) {
      var before := DaysOf(done, g);
      var after := DaysOf(done', g);
      if g == k.1 {
        assert (k.0, g) == k;
        assert after == before + {k.0};
        DaySumRemove(daily, g, after, k.0);
        assert after - {k.0} == before;
      } else {
        assert after == before;
      }
    }
  }

  /** Once every row of the window is summed, the partial sums are the window sums. */
  lemma WindowSums(daily: Daily, start: int, done: set<(int, string)>, part: map<string, nat>)
    requires done == set k | k in daily && k.0 >= start
    requires PartialSums(daily, start, done, part)
    ensures part.Keys == DailyWindowGuides(daily, start)
    ensures forall g :: TotalOf(part, g) == DailyWindowSum(daily, g, start)
  {
    forall g ensures TotalOf(part, g) == DailyWindowSum(daily, g, start) {
      assert DaysOf(done, g) == WindowDays(daily, g, start);
    }
  }

  /** The totals of the summary-table query. */
  method CombinedTotals(db: Db, now: int, days: int) returns (totals: map<string, nat>)
    ensures totals == SummaryTotals(db, now, days)
  {
    var start := DailyStart(now, days);
    var part := SumDailyWindow(db.daily, start);
    var recent := RecentGuides(db.raw, RawStart(now), Since(now, days));
    totals := map g | g in part.Keys + recent ::
      TotalOf(part, g) + RecentCount(db.raw, g, RawStart(now), Since(now, days));
    ghost var spec := SummaryTotals(db, now, days);
    assert totals.Keys == spec.Keys;
    forall g | g in totals ensures totals[g] == spec[g] {
      assert TotalOf(part, g) == DailyWindowSum(db.daily, g, start);
    }
  }

  /** The indices of the raw rows of `g` stamped at or after `since`. */
  function RowsSince(raw: seq<Click>, g: string, since: int): set<int> {
    set i | 0 <= i < |raw| && raw[i].guideId == g && raw[i].ts >= since
  }

  /** The totals of the raw-only fallback query, `COUNT(*) ... WHERE ts_utc >= ?
      GROUP BY guide_id`: each guide with a row stamped at or after `since`, with
      the number of such rows. */
  function RawTotals(raw: seq<Click>, since: int): (m: map<string, nat>)
    ensures forall g :: g in m <==> exists i :: 0 <= i < |raw| && raw[i].guideId == g && raw[i].ts >= since
    ensures forall g :: g in m ==> m[g] == |RowsSince(raw, g, since)|
  {
    var guides := set i | 0 <= i < |raw| && raw[i].ts >= since :: raw[i].guideId;
    var m := map g | g in guides :: RecentCount(raw, g, DayOf(since), since);
    assert forall g :: g in m ==> m[g] == |RowsSince(raw, g, since)| by {
      forall g | g in m ensures m[g] == |RowsSince(raw, g, since)| {
        RecentCountSince(raw, g, since);
      }
    }
    m
  }

  /** A raw row `RecentCount` counts. */
  predicate IsRecent(c: Click, g: string, fromDay: int, since: int) {
    c.guideId == g && DayOf(c.ts) >= fromDay && c.ts >= since
  }

  /** The indices of the raw rows `RecentCount` counts. */
  function RecentRows(raw: seq<Click>, g: string, fromDay: int, since: int): set<int> {
    set i | 0 <= i < |raw| && IsRecent(raw[i], g, fromDay, since)
  }

  /** `RecentCount` counts exactly the rows it selects. */
  lemma {:induction false} RecentCountRows(raw: seq<Click>, g: string, fromDay: int, since: int)
    ensures RecentCount(raw, g, fromDay, since) == |RecentRows(raw, g, fromDay, since)|
    decreases |raw|
  {
    if |raw| > 0 {
      var n := |raw| - 1;
      var init := raw[..n];
      RecentCountRows(init, g, fromDay, since);
      var before := RecentRows(init, g, fromDay, since);
      var after := RecentRows(raw, g, fromDay, since);
      var c := raw[n];
      assert forall i :: 0 <= i < n ==> init[i] == raw[i];
      if IsRecent(c, g, fromDay, since) {
        assert n !in before;
        assert after == before + {n};
      } else {
        assert after == before;
      }
    }
  }

  /** A row stamped at or after `since` is dated on or after `since`'s day, so
      the day bound adds nothing when it is `DayOf(since)`. */
  lemma RecentCountSince(raw: seq<Click>, g: string, since: int)
    ensures RecentCount(raw, g, DayOf(since), since) == |RowsSince(raw, g, since)|
  {
    RecentCountRows(raw, g, DayOf(since), since);
    forall i | 0 <= i < |raw| && raw[i].ts >= since ensures DayOf(raw[i].ts) >= DayOf(since) {
      DayOfMonotone(since, raw[i].ts);
    }
    assert forall i :: 0 <= i < |raw| ==>
             (IsRecent(raw[i], g, DayOf(since), since) <==> raw[i].guideId == g && raw[i].ts >= since);
    assert RecentRows(raw, g, DayOf(since), since) == RowsSince(raw, g, since);
  }

  // ---------------------------------------------------------------------------
  // Ranking: ORDER BY total DESC LIMIT n, with ties in no particular order.

  function IdsOf(ranked: seq<(string, nat)>): set<string> {
    set i | 0 <= i < |ranked| :: ranked[i].0
  }

  /** `ranked` is a ranking of (part of) `totals`: correct totals, no guide twice,
      totals descending. */
  predicate RankedFrom(totals: map<string, nat>, ranked: seq<(string, nat)>) {
    && (forall i :: 0 <= i < |ranked| ==> ranked[i].0 in totals && ranked[i].1 == totals[ranked[i].0])
    && (forall i, j :: 0 <= i < j < |ranked| ==> ranked[i].0 != ranked[j].0)
    && (forall i, j :: 0 <= i < j < |ranked| ==> ranked[i].1 >= ranked[j].1)
  }

  /** A guide of largest total among `m`. */
  method MaxTotal(m: map<string, nat>) returns (g: string)
    requires |m| > 0
    ensures g in m
    ensures forall h :: h in m ==> m[h] <= m[g]
  {
    var todo := m.Keys;
    g :| g in todo;
    todo := todo - {g};
    while todo != {}
      invariant todo <= m.Keys && g in m
      invariant forall h :: h in m && h !in todo ==> m[h] <= m[g]
      decreases |todo|
    {
      var h :| h in todo;
      if m[h] > m[g] {
        g := h;
      }
      todo := todo - {h};
    }
  }

  /** `rows` is `limit` rows (or all of them, when there are fewer) of `totals`
      in descending order, and every guide left out has a total no larger than
      any row's: `ORDER BY total DESC LIMIT ?`. */
  predicate TopOf(totals: map<string, nat>, limit: nat, rows: seq<(string, nat)>) {
    && |rows| == (if limit < |totals| then limit else |totals|)
    && RankedFrom(totals, rows)
    && forall g :: g in totals && g !in IdsOf(rows) ==>
         forall i :: 0 <= i < |rows| ==> rows[i].1 >= totals[g]
  }

  /** The first `limit` guides of `totals` by total, highest first. */
  method RankByTotal(totals: map<string, nat>, limit: nat) returns (ranked: seq<(string, nat)>)
    ensures TopOf(totals, limit, ranked)
  {
    ranked := [];
    var rest := totals;
    RankStart(totals);
    while |ranked| < limit && |rest| > 0
      invariant RankState(totals, ranked, rest) && |ranked| <= limit
      decreases |rest|
    {
      var g := MaxTotal(rest);
      RankStep(totals, ranked, rest, g);
      ranked := ranked + [(g, rest[g])];
      rest := rest - {g};
    }
    RankDone(totals, ranked, rest);
  }

  /** Half-way through the ranking: `ranked` is a ranking, `rest` holds exactly
      the totals not yet placed, and nothing left outranks anything placed. */
  predicate RankState(totals: map<string, nat>, ranked: seq<(string, nat)>, rest: map<string, nat>) {
    && RankedFrom(totals, ranked)
    && rest.Keys == totals.Keys - IdsOf(ranked)
    && (forall g :: g in rest ==> rest[g] == totals[g])
    && |ranked| + |rest| == |totals|
    && (forall g, i :: g in rest && 0 <= i < |ranked| ==> ranked[i].1 >= rest[g])
  }

  lemma RankStart(totals: map<string, nat>)
    ensures RankState(totals, [], totals)
  {
    assert IdsOf([]) == {};
  }

  /** What the ranking state promises about the guides never placed. */
  lemma RankDone(totals: map<string, nat>, ranked: seq<(string, nat)>, rest: map<string, nat>)
    requires RankState(totals, ranked, rest)
    ensures forall g :: g in totals && g !in IdsOf(ranked) ==>
              forall i :: 0 <= i < |ranked| ==> ranked[i].1 >= totals[g]
  {
    forall g, i | g in totals && g !in IdsOf(ranked) && 0 <= i < |ranked|
      ensures ranked[i].1 >= totals[g]
    {
      assert g in rest;
    }
  }

  lemma IdsOfAppend(ranked: seq<(string, nat)>, row: (string, nat))
    ensures IdsOf(ranked + [row]) == IdsOf(ranked) + {row.0}
  {
    var r' := ranked + [row];
    forall x ensures x in IdsOf(r') <==> x in IdsOf(ranked) + {row.0} {
      if x in IdsOf(r') {
        var i :| 0 <= i < |r'| && r'[i].0 == x;
        if i < |ranked| {
          assert ranked[i].0 == x;
        }
      }
      if x in IdsOf(ranked) {
        var i :| 0 <= i < |ranked| && ranked[i].0 == x;
        assert r'[i].0 == x;
      }
      if x == row.0 {
        assert r'[|ranked|].0 == x;
      }
    }
  }

  /** Appending a guide not yet placed whose total is at most every placed one
      keeps a ranking a ranking. */
  lemma RankedAppend(totals: map<string, nat>, ranked: seq<(string, nat)>, g: string)
    requires RankedFrom(totals, ranked)
    requires g in totals && g !in IdsOf(ranked)
    requires forall i :: 0 <= i < |ranked| ==> ranked[i].1 >= totals[g]
    ensures RankedFrom(totals, ranked + [(g, totals[g])])
  {
    var r' := ranked + [(g, totals[g])];
    forall i | 0 <= i < |ranked| ensures ranked[i].0 != g {
      assert ranked[i].0 in IdsOf(ranked);
    }
    assert forall i :: 0 <= i < |ranked| ==> r'[i] == ranked[i];
  }

  /** Appending the largest remaining total keeps the ranking a ranking. */
  lemma RankStep(totals: map<string, nat>, ranked: seq<(string, nat)>, rest: map<string, nat>, g: string)
    requires RankState(totals, ranked, rest)
    requires g in rest && forall h :: h in rest ==> rest[h] <= rest[g]
    ensures RankState(totals, ranked + [(g, rest[g])], rest - {g})
  {
    var r' := ranked + [(g, rest[g])];
    var rest' := rest - {g};
    IdsOfAppend(ranked, (g, rest[g]));
    RankedAppend(totals, ranked, g);
    assert rest'.Keys == rest.Keys - {g};
    OutranksAppend(ranked, rest, g);
  }

  /** The largest remaining total outranks what remains after it. */
  lemma OutranksAppend(ranked: seq<(string, nat)>, rest: map<string, nat>, g: string)
    requires forall h, i :: h in rest && 0 <= i < |ranked| ==> ranked[i].1 >= rest[h]
    requires g in rest && forall h :: h in rest ==> rest[h] <= rest[g]
    ensures forall h, i :: h in rest - {g} && 0 <= i < |ranked| + 1 ==>
              (ranked + [(g, rest[g])])[i].1 >= (rest - {g})[h]
  {
    var r' := ranked + [(g, rest[g])];
    assert forall i :: 0 <= i < |ranked| ==> r'[i] == ranked[i];
  }

  /** What `top_guides_simple(days, limit)` may return: `[]` when the query
      raises, otherwise the top of the summary totals when the daily table exists
      and of the raw totals when it does not. */
  ghost predicate TopRows(db: Db, now: int, days: int, limit: nat, hasSummary: bool, queryFails: bool,
                          rows: seq<(string, nat)>) {
    if queryFails then rows == []
    else if hasSummary then TopOf(SummaryTotals(db, now, days), limit, rows)
    else TopOf(RawTotals(db.raw, Since(now, days)), limit, rows)
  }

  /** `top_guides_simple(days, limit)` on SQLite: the summary query when the daily
      table exists, the raw-only query otherwise, and `[]` when the query raises. */
  method TopGuidesSimple(db: Db, now: int, days: int, limit: nat, hasSummary: bool, queryFails: bool)
    returns (rows: seq<(string, nat)>)
    ensures |rows| <= limit
    ensures forall i, j :: 0 <= i < j < |rows| ==> rows[i].1 >= rows[j].1 && rows[i].0 != rows[j].0
    ensures queryFails ==> rows == []
    ensures TopRows(db, now, days, limit, hasSummary, queryFails, rows)
  {
    if queryFails {
      return [];
    }
    var totals;
    if hasSummary {
      totals := CombinedTotals(db, now, days);
    } else {
      totals := RawTotals(db.raw, Since(now, days));
    }
    rows := RankByTotal(totals, limit);
  }

  // ---------------------------------------------------------------------------
  // The summary totals after a rollup.

  /** A guide's summary total is its daily sum plus its recent raw count, also
      when it has neither (both parts are then 0). */
  lemma SummaryTotalOf(db: Db, now: int, days: int, g: string)
    ensures TotalOf(SummaryTotals(db, now, days), g) ==
              DailyWindowSum(db.daily, g, DailyStart(now, days))
              + RecentCount(db.raw, g, RawStart(now), Since(now, days))
  {
    var start := DailyStart(now, days);
    if g !in DailyWindowGuides(db.daily, start) {
      assert WindowDays(db.daily, g, start) == {};
    }
    if g !in RecentGuides(db.raw, RawStart(now), Since(now, days)) {
      RecentCountZero(db.raw, g, RawStart(now), Since(now, days));
    }
  }

  /** A guide without recent raw rows has a recent count of 0. */
  lemma {:induction false} RecentCountZero(raw: seq<Click>, g: string, fromDay: int, since: int)
    requires g !in RecentGuides(raw, fromDay, since)
    ensures RecentCount(raw, g, fromDay, since) == 0
    decreases |raw|
  {
    if |raw| > 0 {
      var init := raw[..|raw| - 1];
      RecentCountZero(init, g, fromDay, since);
    }
  }

  /** The purge keeps every raw row dated on or after the cutoff, so recent
      counts from a later day are unchanged. */
  lemma {:induction false} RecentCountKept(raw: seq<Click>, cutoff: int, g: string, fromDay: int, since: int)
    requires fromDay >= cutoff
    ensures RecentCount(KeepFrom(raw, cutoff), g, fromDay, since) == RecentCount(raw, g, fromDay, since)
    decreases |raw|
  {
    if |raw| > 0 {
      var init := raw[..|raw| - 1];
      var last := raw[|raw| - 1];
      RecentCountKept(init, cutoff, g, fromDay, since);
      var k := KeepFrom(init, cutoff);
      if DayOf(last.ts) >= cutoff {
        assert (k + [last])[..|k + [last]| - 1] == k;
      } else {
        assert k + [] == k;
      }
    }
  }

  /** Every raw row of `g` dated `day` is recent when the day lies inside both
      windows. */
  lemma {:induction false} RecentCountCoversDay(raw: seq<Click>, g: string, fromDay: int, since: int, day: int)
    requires day >= fromDay && day * SecondsPerDay >= since
    ensures RecentCount(raw, g, fromDay, since) >= CountOn(raw, day, g)
    decreases |raw|
  {
    if |raw| > 0 {
      var c := raw[|raw| - 1];
      RecentCountCoversDay(raw[..|raw| - 1], g, fromDay, since, day);
      if OnDay(c, day, g) {
        assert DayOf(c.ts) * SecondsPerDay <= c.ts;
      }
    }
  }

  /** The upsert adds `g`'s count to its daily sum over any window that contains
      the upserted day. */
  lemma DailyWindowAfterUpsert(daily: Daily, y: int, counts: map<string, nat>, g: string, start: int)
    requires y >= start
    ensures DailyWindowSum(Upserted(daily, y, counts), g, start) ==
              DailyWindowSum(daily, g, start) + (if g in counts then counts[g] else 0)
  {
    var after := Upserted(daily, y, counts);
    var w := WindowDays(daily, g, start);
    var w' := WindowDays(after, g, start);
    forall d | d != y ensures DailyGet(after, (d, g)) == DailyGet(daily, (d, g)) {
    }
    if g !in counts {
      assert w' == w;
      DaySumFrame(after, daily, g, w);
    } else {
      assert y in w' by { assert (y, g) in after; }
      assert w' - {y} == w - {y};
      DaySumRemove(after, g, w', y);
      DaySumFrame(after, daily, g, w - {y});
      if y in w {
        DaySumRemove(daily, g, w, y);
      } else {
        assert (y, g) !in daily;
        assert w - {y} == w;
      }
    }
  }

  /** After yesterday's rollup the summary query counts yesterday's clicks twice:
      once through the new daily row and once through the raw rows, which are
      still inside the two-day raw window. Each guide's total grows by its raw
      count for yesterday, and then holds that count at least twice. */
  lemma SummaryCountsYesterdayTwice(db: Db, now: int, days: int, g: string)
    requires days >= 2
    ensures var after := RollupEffect(db, DayOf(now), now).db;
            var y := DayOf(now) - 1;
            && TotalOf(SummaryTotals(after, now, days), g) ==
                 TotalOf(SummaryTotals(db, now, days), g) + CountOn(db.raw, y, g)
            && TotalOf(SummaryTotals(after, now, days), g) >= 2 * CountOn(db.raw, y, g)
  {
    var y := DayOf(now) - 1;
    var counts := DayCounts(db.raw, y);
    var after := RollupEffect(db, DayOf(now), now).db;
    assert after.daily == Upserted(db.daily, y, counts);
    SummaryTotalOf(db, now, days, g);
    SummaryTotalOf(after, now, days, g);
    DailyWindowAfterUpsert(db.daily, y, counts, g, DailyStart(now, days));
    RecentCountKept(db.raw, PurgeCutoff(now), g, RawStart(now), Since(now, days));
    assert y * SecondsPerDay >= Since(now, days);
    RecentCountCoversDay(db.raw, g, RawStart(now), Since(now, days), y);
  }

  // ---------------------------------------------------------------------------
  // The popular endpoint.

  /** One entry of the popular endpoint's `guides` list. */
  datatype PopularGuide = PopularGuide(id: string, title: string, href: string, group: string, clicks: nat)

  /** The rows whose id `entries` knows, with the metadata stored for it, in
      ranking order. */
  function Enrich(entries: seq<Entry>, rows: seq<(string, nat)>): (r: seq<PopularGuide>)
    ensures |r| <= |rows|
    ensures forall k :: 0 <= k < |r| ==>
              Lookup(entries, r[k].id) == Some(Guide(r[k].title, r[k].href, r[k].group))
    ensures forall k :: 0 <= k < |r| ==> (r[k].id, r[k].clicks) in rows
  {
    if |rows| == 0 then []
    else
      var rest := Enrich(entries, rows[1..]);
      var head := EnrichRow(entries, rows[0]);
      assert forall k :: 0 <= k < |rest| ==> (rest[k].id, rest[k].clicks) in rows by {
        forall k | 0 <= k < |rest| ensures (rest[k].id, rest[k].clicks) in rows {
          assert (rest[k].id, rest[k].clicks) in rows[1..];
        }
      }
      head + rest
  }

  /** One ranked row with its metadata, or nothing when `entries` lacks its id. */
  function EnrichRow(entries: seq<Entry>, row: (string, nat)): (h: seq<PopularGuide>)
    ensures |h| <= 1
    ensures |h| == 1 <==> Lookup(entries, row.0).Some?
    ensures |h| == 1 ==> h[0].id == row.0 && h[0].clicks == row.1
                         && Lookup(entries, row.0) == Some(Guide(h[0].title, h[0].href, h[0].group))
  {
    var info := Lookup(entries, row.0);
    if info.Some? then [PopularGuide(row.0, info.value.title, info.value.href, info.value.group, row.1)]
    else []
  }

  function RowsOf(r: seq<PopularGuide>): set<(string, nat)> {
    set k | 0 <= k < |r| :: (r[k].id, r[k].clicks)
  }

  /** Nothing the catalog knows is dropped: every row with a known id is kept. */
  lemma {:induction false} EnrichComplete(entries: seq<Entry>, rows: seq<(string, nat)>)
    ensures forall i :: 0 <= i < |rows| && Lookup(entries, rows[i].0).Some? ==>
              rows[i] in RowsOf(Enrich(entries, rows))
  {
    if |rows| > 0 {
      var r := Enrich(entries, rows);
      var rest := Enrich(entries, rows[1..]);
      var h := EnrichRow(entries, rows[0]);
      assert r == h + rest;
      EnrichComplete(entries, rows[1..]);
      forall i | 0 <= i < |rows| && Lookup(entries, rows[i].0).Some?
        ensures rows[i] in RowsOf(r)
      {
        if i == 0 {
          assert (r[0].id, r[0].clicks) == rows[0];
        } else {
          assert rows[1..][i - 1] == rows[i];
          var k :| 0 <= k < |rest| && (rest[k].id, rest[k].clicks) == rows[i];
          assert r[|h| + k] == rest[k];
        }
      }
    }
  }

  /** A guides list ordered by descending clicks, as the ranking leaves it. */
  predicate ClicksDescending(r: seq<PopularGuide>) {
    forall i, j :: 0 <= i < j < |r| ==> r[i].clicks >= r[j].clicks
  }

  /** A guides list in which no id repeats. */
  predicate IdsDistinct(r: seq<PopularGuide>) {
    forall i, j :: 0 <= i < j < |r| ==> r[i].id != r[j].id
  }

  /** Filtering keeps the order of the ranking: a descending list stays descending. */
  lemma {:induction false} EnrichKeepsOrder(entries: seq<Entry>, rows: seq<(string, nat)>)
    requires forall i, j :: 0 <= i < j < |rows| ==> rows[i].1 >= rows[j].1
    ensures ClicksDescending(Enrich(entries, rows))
  {
    if |rows| > 0 {
      var r := Enrich(entries, rows);
      var rest := Enrich(entries, rows[1..]);
      var h := EnrichRow(entries, rows[0]);
      assert r == h + rest;
      EnrichKeepsOrder(entries, rows[1..]);
      forall i, j | 0 <= i < j < |r| ensures r[i].clicks >= r[j].clicks {
        assert r[j] == rest[j - |h|];
        if i < |h| {
          assert (rest[j - |h|].id, rest[j - |h|].clicks) in rows[1..];
          var k :| 0 <= k < |rows[1..]| && rows[1..][k] == (rest[j - |h|].id, rest[j - |h|].clicks);
          assert rows[k + 1] == rows[1..][k];
        } else {
          assert r[i] == rest[i - |h|];
        }
      }
    }
  }

  /** Filtering keeps the ranking's order outright: the filter of a concatenation
      is the concatenation of the filters, so a kept row never moves past another. */
  lemma {:induction false} EnrichAppend(entries: seq<Entry>, a: seq<(string, nat)>, b: seq<(string, nat)>)
    ensures Enrich(entries, a + b) == Enrich(entries, a) + Enrich(entries, b)
    decreases |a|
  {
    if |a| == 0 {
      assert a + b == b;
    } else {
      assert (a + b)[0] == a[0];
      assert (a + b)[1..] == a[1..] + b;
      EnrichAppend(entries, a[1..], b);
    }
  }

  /** Filtering a list of distinct ids gives distinct ids. */
  lemma {:induction false} EnrichDistinct(entries: seq<Entry>, rows: seq<(string, nat)>)
    requires forall i, j :: 0 <= i < j < |rows| ==> rows[i].0 != rows[j].0
    ensures IdsDistinct(Enrich(entries, rows))
  {
    if |rows| > 0 {
      var r := Enrich(entries, rows);
      var rest := Enrich(entries, rows[1..]);
      var h := EnrichRow(entries, rows[0]);
      assert r == h + rest;
      EnrichDistinct(entries, rows[1..]);
      forall i, j | 0 <= i < j < |r| ensures r[i].id != r[j].id {
        assert r[j] == rest[j - |h|];
        if i < |h| {
          assert (rest[j - |h|].id, rest[j - |h|].clicks) in rows[1..];
          var k :| 0 <= k < |rows[1..]| && rows[1..][k] == (rest[j - |h|].id, rest[j - |h|].clicks);
          assert rows[k + 1] == rows[1..][k];
        } else {
          assert r[i] == rest[i - |h|];
        }
      }
    }
  }

  /** Every guide of the list carries the metadata the catalog stores for its id. */
  predicate CatalogMetadata(r: seq<PopularGuide>) {
    forall k :: 0 <= k < |r| ==> GetGuideById(r[k].id) == Some(Guide(r[k].title, r[k].href, r[k].group))
  }

  /** Filtering through the shipped catalog attaches its metadata. */
  lemma EnrichFromCatalog(rows: seq<(string, nat)>)
    ensures CatalogMetadata(Enrich(Entries, rows))
  {
    var r := Enrich(Entries, rows);
    forall k | 0 <= k < |r|
      ensures GetGuideById(r[k].id) == Some(Guide(r[k].title, r[k].href, r[k].group))
    {
      assert Lookup(Entries, r[k].id) == Some(Guide(r[k].title, r[k].href, r[k].group));
    }
  }

  /** The popular endpoint's reply: the clamped window and the filtered guides. */
  datatype PopularResponse = PopularResponse(guides: seq<PopularGuide>, days: int, limit: int)

  /** `guides` is the catalog filter of a ranking `top_guides_simple` may return
      for window `w`. */
  ghost predicate RankedThenFiltered(db: Db, now: int, w: Window, hasSummary: bool, queryFails: bool,
                                     guides: seq<PopularGuide>)
    requires w.limit >= 0
  {
    exists rows {:trigger TopRows(db, now, w.days, w.limit, hasSummary, queryFails, rows)} ::
      TopRows(db, now, w.days, w.limit, hasSummary, queryFails, rows) && guides == Enrich(Entries, rows)
  }

  /** `popular_guides_api()` on SQLite. */
  method PopularGuides(db: Db, now: int, daysArg: Option<int>, limitArg: Option<int>,
                       hasSummary: bool, queryFails: bool)
    returns (response: PopularResponse)
    ensures response.days == PopularWindow(daysArg, limitArg).days
    ensures response.limit == PopularWindow(daysArg, limitArg).limit
    ensures |response.guides| <= response.limit
    ensures CatalogMetadata(response.guides)
    ensures ClicksDescending(response.guides) && IdsDistinct(response.guides)
    ensures queryFails ==> response.guides == []
    ensures RankedThenFiltered(db, now, PopularWindow(daysArg, limitArg), hasSummary, queryFails, response.guides)
  {
    var w := PopularWindow(daysArg, limitArg);
    var rows := TopGuidesSimple(db, now, w.days, w.limit, hasSummary, queryFails);
    EnrichKeepsOrder(Entries, rows);
    EnrichDistinct(Entries, rows);
    EnrichFromCatalog(rows);
    response := PopularResponse(Enrich(Entries, rows), w.days, w.limit);
  }
}

/**
 The two analytics tables: `guide_clicks`, the raw append-only click log, and
 `guide_clicks_daily`, the per-day per-guide click counts keyed by
 `(day, guide_id)`. Timestamps are instants in whole seconds since the epoch
 (UTC); `date(ts_utc)` is the UTC day number `DayOf(ts)`.
 */
module Store {

  const SecondsPerDay: nat := 86400

  /** The UTC calendar day of an instant (floor division, also before the epoch). */
  function DayOf(ts: int): int {
    ts / SecondsPerDay
  }

  /** A later instant is never on an earlier day. */
  lemma DayOfMonotone(a: int, b: int)
    requires a <= b
    ensures DayOf(a) <= DayOf(b)
  {
  }

  /** One row of `guide_clicks`. */
  datatype Click = Click(guideId: string, title: string, href: string, ua: string, ts: int)

  /** `guide_clicks_daily`: `(day, guide_id)` to `clicks`. */
  type Daily = map<(int, string), nat>

  datatype Db = Db(raw: seq<Click>, daily: Daily)

  /** `clicks` of a daily key, 0 when there is no row. */
  function DailyGet(daily: Daily, k: (int, string)): nat {
    if k in daily then daily[k] else 0
  }

  predicate OnDay(c: Click, day: int, g: string) {
    DayOf(c.ts) == day && c.guideId == g
  }

  /** `SELECT COUNT(*) FROM guide_clicks WHERE date(ts_utc) = day AND guide_id = g`. */
  function CountOn(raw: seq<Click>, day: int, g: string): nat
    decreases |raw|
  {
    if |raw| == 0 then 0
    else CountOn(raw[..|raw| - 1], day, g) + (if OnDay(raw[|raw| - 1], day, g) then 1 else 0)
  }

  /** The guides with at least one raw row dated `day`. */
  function GuidesOn(raw: seq<Click>, day: int): set<string> {
    set i | 0 <= i < |raw| && DayOf(raw[i].ts) == day :: raw[i].guideId
  }

  /** A guide has raw rows on a day exactly when its count for that day is positive. */
  lemma {:induction false} GuidesOnIffCounted(raw: seq<Click>, day: int, g: string)
    ensures g in GuidesOn(raw, day) <==> CountOn(raw, day, g) > 0
    decreases |raw|
  {
    if |raw| > 0 {
      var init := raw[..|raw| - 1];
      GuidesOnIffCounted(init, day, g);
      if g in GuidesOn(raw, day) && !OnDay(raw[|raw| - 1], day, g) {
        var i :| 0 <= i < |raw| && DayOf(raw[i].ts) == day && raw[i].guideId == g;
        assert i < |raw| - 1 && init[i] == raw[i];
      }
      if g in GuidesOn(init, day) {
        var i :| 0 <= i < |init| && DayOf(init[i].ts) == day && init[i].guideId == g;
        assert raw[i] == init[i];
      }
    }
  }

  /** The result of `SELECT guide_id, COUNT(*) ... WHERE date(ts_utc) = day GROUP BY guide_id`. */
  function DayCounts(raw: seq<Click>, day: int): (m: map<string, nat>)
    ensures forall g :: g in m <==> CountOn(raw, day, g) > 0
    ensures forall g :: g in m ==> m[g] == CountOn(raw, day, g)
  {
    forall g ensures g in GuidesOn(raw, day) <==> CountOn(raw, day, g) > 0 {
      GuidesOnIffCounted(raw, day, g);
    }
    map g | g in GuidesOn(raw, day) :: CountOn(raw, day, g)
  }

  /** The raw rows that survive `DELETE ... WHERE date(ts_utc) < cutoff`, in order. */
  function KeepFrom(raw: seq<Click>, cutoff: int): (kept: seq<Click>)
    ensures |kept| <= |raw|
    ensures forall c :: c in kept ==> DayOf(c.ts) >= cutoff
    decreases |raw|
  {
    if |raw| == 0 then []
    else
      var init := raw[..|raw| - 1];
      var last := raw[|raw| - 1];
      KeepFrom(init, cutoff) + (if DayOf(last.ts) >= cutoff then [last] else [])
  }

  /** The purge is a filter: a row dated on or after the cutoff survives with its
      multiplicity, any other row disappears. */
  lemma {:induction false} KeepFromCounts(raw: seq<Click>, cutoff: int)
    ensures forall c :: multiset(KeepFrom(raw, cutoff))[c] ==
              if DayOf(c.ts) >= cutoff then multiset(raw)[c] else 0
    decreases |raw|
  {
    if |raw| > 0 {
      var init := raw[..|raw| - 1];
      var last := raw[|raw| - 1];
      assert raw == init + [last];
      KeepFromCounts(init, cutoff);
    }
  }

  /** Every raw row is dated on or after `cutoff`: the purge deletes nothing. */
  lemma {:induction false} KeepFromAllRecent(raw: seq<Click>, cutoff: int)
    requires forall i :: 0 <= i < |raw| ==> DayOf(raw[i].ts) >= cutoff
    ensures KeepFrom(raw, cutoff) == raw
    decreases |raw|
  {
    if |raw| > 0 {
      var init := raw[..|raw| - 1];
      var last := raw[|raw| - 1];
      assert forall i :: 0 <= i < |init| ==> init[i] == raw[i];
      KeepFromAllRecent(init, cutoff);
      assert DayOf(last.ts) >= cutoff;
      assert init + [last] == raw;
    }
  }

  /** Purging twice with the same cutoff removes nothing the first time did not. */
  lemma KeepFromIdempotent(raw: seq<Click>, cutoff: int)
    ensures KeepFrom(KeepFrom(raw, cutoff), cutoff) == KeepFrom(raw, cutoff)
  {
    var kept := KeepFrom(raw, cutoff);
    forall i | 0 <= i < |kept| ensures DayOf(kept[i].ts) >= cutoff {
      assert kept[i] in kept;
    }
    KeepFromAllRecent(kept, cutoff);
  }

  /** The purge keeps every row of a day on or after the cutoff, so that day's
      per-guide counts are unchanged. */
  lemma {:induction false} CountOnKept(raw: seq<Click>, cutoff: int, day: int, g: string)
    requires day >= cutoff
    ensures CountOn(KeepFrom(raw, cutoff), day, g) == CountOn(raw, day, g)
    decreases |raw|
  {
    if |raw| > 0 {
      var init := raw[..|raw| - 1];
      var last := raw[|raw| - 1];
      CountOnKept(init, cutoff, day, g);
      var k := KeepFrom(init, cutoff);
      if DayOf(last.ts) >= cutoff {
        assert (k + [last])[..|k + [last]| - 1] == k;
      } else {
        assert k + [] == k;
      }
    }
  }
}

/**
 `POST /analytics/maintenance/rollup` on the SQLite engine: an admin-secret gate,
 then an upsert that ADDS yesterday's per-guide raw counts into the daily table,
 then a purge of raw rows dated more than 90 days before the UTC date, both under
 one commit.

 Two clocks are involved: `yesterday` is computed from `date.today()`, the
 server's LOCAL date (`localToday`), while the purge cutoff uses SQLite's
 `date('now')`, the UTC date of `now`.
 */
module Rollup {
  import opened Common
  import opened Store

  const RetentionDays: nat := 90

  datatype RollupError =
    | NotConfigured   // 500 "not_configured": ADMIN_SECRET unset or empty
    | Unauthorized    // 403 "unauthorized": X-Admin-Secret differs
    | RollupFailed    // 500 "rollup_failed": a statement or the commit raised

  datatype RollupResponse =
    | RolledUp(aggregatedGuides: nat, purgedRecords: nat)
    | Refused(error: RollupError, status: nat)

  /** The secret check, run before the database is touched. `adminSecret` is the
      `ADMIN_SECRET` environment variable, `header` the `X-Admin-Secret` header. */
  function Gate(adminSecret: Option<string>, header: Option<string>): (r: Option<RollupResponse>)
    ensures r.None? <==> adminSecret.Some? && |adminSecret.value| > 0 && header == adminSecret
    ensures (adminSecret.None? || adminSecret == Some("")) ==> r == Some(Refused(NotConfigured, 500))
    ensures r.Some? ==> r.value.Refused? && (r.value.status == 500 || r.value.status == 403)
    ensures adminSecret.Some? && |adminSecret.value| > 0 && header != adminSecret ==>
              r == Some(Refused(Unauthorized, 403))
  {
    if adminSecret.None? || |adminSecret.value| == 0 then Some(Refused(NotConfigured, 500))
    else if header != adminSecret then Some(Refused(Unauthorized, 403))
    else None
  }

  /** The daily table after `INSERT ... ON CONFLICT(day, guide_id) DO UPDATE SET
      clicks = clicks + excluded.clicks` for every `(g, n)` of `counts` on `day`. */
  function Upserted(daily: Daily, day: int, counts: map<string, nat>): (d: Daily)
    ensures d.Keys == daily.Keys + set g | g in counts :: (day, g)
    ensures forall g :: g in counts ==> d[(day, g)] == DailyGet(daily, (day, g)) + counts[g]
    ensures forall k :: k in daily && !(k.0 == day && k.1 in counts) ==> d[k] == daily[k]
  {
    map k | k in daily.Keys + (set g | g in counts :: (day, g)) ::
      if k.0 == day && k.1 in counts then DailyGet(daily, k) + counts[k.1] else daily[k]
  }

  /** The loop over the grouped rows: one upsert per guide, counting the guides. */
  method UpsertEach(daily: Daily, day: int, counts: map<string, nat>) returns (d: Daily, aggregated: nat)
    ensures d == Upserted(daily, day, counts)
    ensures aggregated == |counts|
  {
    d := daily;
    aggregated := 0;
    var todo := counts.Keys;
    ghost var done: set<string> := {};
    while todo != {}
      invariant todo <= counts.Keys && done == counts.Keys - todo
      invariant aggregated + |todo| == |counts|
      invariant UpsertedOn(daily, day, counts, done, d)
      decreases |todo|
    {
      var g :| g in todo;
      UpsertStep(daily, day, counts, done, d, g);
      assert done + {g} == counts.Keys - (todo - {g});
      d := d[(day, g) := DailyGet(d, (day, g)) + counts[g]];
      todo := todo - {g};
      done := done + {g};
      aggregated := aggregated + 1;
    }
    UpsertedDetermined(daily, day, counts, d);
  }

  /** `d` is `daily` with the upserts for the guides in `done` applied. */
  ghost predicate UpsertedOn(daily: Daily, day: int, counts: map<string, nat>, done: set<string>, d: Daily)
    requires done <= counts.Keys
  {
    && (forall k :: k in d <==> k in daily || (k.0 == day && k.1 in done))
    && (forall g :: g in done ==> (day, g) in d && d[(day, g)] == DailyGet(daily, (day, g)) + counts[g])
    && (forall k :: k in daily && !(k.0 == day && k.1 in done) ==> k in d && d[k] == daily[k])
  }

  /** One more upsert extends the set of applied guides by one. */
  lemma UpsertStep(daily: Daily, day: int, counts: map<string, nat>, done: set<string>, d: Daily, g: string)
    requires done <= counts.Keys && g in counts && g !in done
    requires UpsertedOn(daily, day, counts, done, d)
    ensures UpsertedOn(daily, day, counts, done + {g}, d[(day, g) := DailyGet(d, (day, g)) + counts[g]])
  {
    assert DailyGet(d, (day, g)) == DailyGet(daily, (day, g));
  }

  /** A table that agrees with `Upserted` key by key is `Upserted`. */
  lemma UpsertedDetermined(daily: Daily, day: int, counts: map<string, nat>, d: Daily)
    requires UpsertedOn(daily, day, counts, counts.Keys, d)
    ensures d == Upserted(daily, day, counts)
  {
    var u := Upserted(daily, day, counts);
    assert forall k :: k in d <==> k in u;
    assert forall k :: k in d ==> d[k] == u[k];
  }

  /** What a committed rollup leaves behind, and its two counters. */
  datatype Effect = Effect(db: Db, aggregatedGuides: nat, purgedRecords: nat)

  function Yesterday(localToday: int): int {
    localToday - 1
  }

  function PurgeCutoff(now: int): int {
    DayOf(now) - RetentionDays
  }

  /** The committed effect of one rollup: yesterday's counts added, old raw rows
      purged, everything else kept. */
  function RollupEffect(db: Db, localToday: int, now: int): (e: Effect)
    ensures e.aggregatedGuides == |DayCounts(db.raw, Yesterday(localToday))|
    ensures e.purgedRecords == |db.raw| - |e.db.raw|
    ensures e.db.raw == KeepFrom(db.raw, PurgeCutoff(now))
  {
    var counts := DayCounts(db.raw, Yesterday(localToday));
    var kept := KeepFrom(db.raw, PurgeCutoff(now));
    Effect(Db(kept, Upserted(db.daily, Yesterday(localToday), counts)), |counts|, |db.raw| - |kept|)
  }

  /** `rollup()`. `commitFails` stands for any statement or the commit raising;
      nothing is committed then and both tables are as before. */
  method Rollup(db: Db, adminSecret: Option<string>, header: Option<string>,
                localToday: int, now: int, commitFails: bool)
    returns (response: RollupResponse, db': Db)
    ensures Gate(adminSecret, header).Some? ==> response == Gate(adminSecret, header).value && db' == db
    ensures Gate(adminSecret, header).None? && commitFails ==>
              response == Refused(RollupFailed, 500) && db' == db
    ensures Gate(adminSecret, header).None? && !commitFails ==>
              var e := RollupEffect(db, localToday, now);
              db' == e.db && response == RolledUp(e.aggregatedGuides, e.purgedRecords)
  {
    var gate := Gate(adminSecret, header);
    if gate.Some? {
      return gate.value, db;
    }
    var yesterday := Yesterday(localToday);
    var counts := DayCounts(db.raw, yesterday);
    var daily, aggregated := UpsertEach(db.daily, yesterday, counts);
    var kept := KeepFrom(db.raw, PurgeCutoff(now));
    if commitFails {
      return Refused(RollupFailed, 500), db;
    }
    response := RolledUp(aggregated, |db.raw| - |kept|);
    db' := Db(kept, daily);
  }

  /** Nothing else changes: daily rows of other days or of guides without clicks
      yesterday keep their value, no daily row disappears, and raw rows dated on or
      after the cutoff survive with their multiplicity. */
  lemma RollupFrame(db: Db, localToday: int, now: int)
    ensures var e := RollupEffect(db, localToday, now);
            && db.daily.Keys <= e.db.daily.Keys
            && (forall k :: k in db.daily && (k.0 != Yesterday(localToday) || CountOn(db.raw, k.0, k.1) == 0)
                  ==> e.db.daily[k] == db.daily[k])
            && (forall c: Click :: DayOf(c.ts) >= PurgeCutoff(now) ==> multiset(e.db.raw)[c] == multiset(db.raw)[c])
            && (forall c: Click :: c in e.db.raw ==> DayOf(c.ts) >= PurgeCutoff(now))
  {
    KeepFromCounts(db.raw, PurgeCutoff(now));
  }

  /** Each guide with raw rows yesterday gains exactly that many clicks on
      yesterday's daily row, and `aggregated_guides` is the number of such guides. */
  lemma RollupAddsYesterday(db: Db, localToday: int, now: int, g: string)
    ensures var e := RollupEffect(db, localToday, now);
            var y := Yesterday(localToday);
            DailyGet(e.db.daily, (y, g)) == DailyGet(db.daily, (y, g)) + CountOn(db.raw, y, g)
    ensures RollupEffect(db, localToday, now).aggregatedGuides == |GuidesOn(db.raw, Yesterday(localToday))|
  {
    var y := Yesterday(localToday);
    var counts := DayCounts(db.raw, y);
    forall h ensures h in GuidesOn(db.raw, y) <==> h in counts {
      GuidesOnIffCounted(db.raw, y, h);
    }
    assert counts.Keys == GuidesOn(db.raw, y);
  }

  /** Re-running the rollup on the same day is not idempotent: while yesterday is
      inside the retention window its raw rows are still there, and the second run
      adds them to the daily table again. The second run purges nothing. */
  lemma RollupTwiceCountsTwice(db: Db, localToday: int, now: int, g: string)
    requires Yesterday(localToday) >= PurgeCutoff(now)
    ensures var e1 := RollupEffect(db, localToday, now);
            var e2 := RollupEffect(e1.db, localToday, now);
            var y := Yesterday(localToday);
            && DailyGet(e2.db.daily, (y, g)) == DailyGet(db.daily, (y, g)) + 2 * CountOn(db.raw, y, g)
            && e2.purgedRecords == 0
            && e2.db.raw == e1.db.raw
  {
    var y := Yesterday(localToday);
    var e1 := RollupEffect(db, localToday, now);
    RollupAddsYesterday(db, localToday, now, g);
    RollupAddsYesterday(e1.db, localToday, now, g);
    CountOnKept(db.raw, PurgeCutoff(now), y, g);
    KeepFromIdempotent(db.raw, PurgeCutoff(now));
  }

  /** A single click yesterday makes two rollups on the same day differ from one. */
  lemma RollupNotIdempotent(db: Db, localToday: int, now: int, g: string)
    requires Yesterday(localToday) >= PurgeCutoff(now)
    requires CountOn(db.raw, Yesterday(localToday), g) > 0
    ensures var e1 := RollupEffect(db, localToday, now);
            RollupEffect(e1.db, localToday, now).db != e1.db
  {
    var y := Yesterday(localToday);
    var e1 := RollupEffect(db, localToday, now);
    RollupTwiceCountsTwice(db, localToday, now, g);
    RollupAddsYesterday(db, localToday, now, g);
    assert DailyGet(RollupEffect(e1.db, localToday, now).db.daily, (y, g)) != DailyGet(e1.db.daily, (y, g));
  }
}

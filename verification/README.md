# Guide analytics, guide catalog and guide text tooling — a Dafny model

This project models three self-contained pieces of a Flask site for a futures
trading education section ("guides"):

1. **Guide-click analytics.** These are the rules behind `POST /analytics/guide-click`,
   `POST /analytics/guide-back-click`, `GET /analytics/top-guides`,
   `GET /analytics/popular` and `POST /analytics/maintenance/rollup`:
   - the slug pattern and the length limits (100 / 200 / 300 / 255);
   - the case-insensitive bot test on the truncated User-Agent;
   - the ordered payload validation and the back-link whitelist;
   - the order in which a request is checked before one row is inserted;
   - the clamping of `days` / `limit`;
   - the merge of the daily summary table with recent raw clicks, ranked by total,
     capped at `limit`, then filtered through the catalog;
   - the admin-gated rollup. It adds yesterday's per-guide counts into the daily
     table, purges raw rows older than 90 days, and commits both at once.

   The rules live in `blueprints/analytics.py`. The older `analytics.py` has only a
   subset of them: the bot test, `_validate_guide_data`, `guide_click`, the
   `/top-guides` clamp and the rollup. It has no back-link view, no
   `top_guides_simple` and no `/popular`. The shared rules are modelled once, and
   the rows below cite whichever file states them.
2. **The guide catalog** (`guides_catalog.py`). It models the eleven shipped guides,
   lookup by id, filtering by group and listing all of them.
3. **The guide text tooling** (`scripts/update_guide_from_text.py`). It models:
   - the FAQ parser, a line-driven question/answer state machine;
   - the main-content parser, which classifies lines into headings, numbered steps,
     bullets and paragraphs;
   - the two HTML serialisers.

The modules follow the program's structure:

| file | module | contents |
|---|---|---|
| `common.dfy` | `Common` | `Option` |
| `text.dfy` | `Text` | the Python `str` operations used: `strip`, `lower`, slicing, `split`/`join`, `index`, regex `IGNORECASE` folding |
| `json.dfy` | `Json` | a parsed JSON body, Python truthiness, `(data.get(k) or '')` |
| `validation.dfy` | `Validation` | slug, bot test, `_validate_guide_data`, back-link check |
| `store.dfy` | `Store` | raw click rows, the `(day, guide_id)`-keyed daily table, per-day counts, purge |
| `ingest.dfy` | `Ingest` | the decision flow of `guide_click` and `guide_back_click` |
| `rollup.dfy` | `Rollup` | the rollup gate, upsert, purge and commit |
| `query.dfy` | `Query` | clamps, the summary + raw totals, ranking, catalog enrichment |
| `catalog.dfy` | `Catalog` | `GUIDES_CATALOG` and its three helpers |
| `guide_text.dfy` | `GuideText` | `parse_faq_content`, `parse_main_content` |
| `guide_html.dfy` | `GuideHtml` | `generate_main_content_html`, `generate_faq_html` |

Each stateful loop of the source is modelled as it runs. Beside it stands an
independent declarative definition, and a lemma for all inputs connects the two:
- `ParseFaq` runs the FAQ state machine, and `FaqBlocks` is the block-by-block reading;
- `ParseMain` runs the section builder, and `MainBlocks` is the declarative one;
- `CombinedTotals` loops over the daily table, and `SummaryTotals` is the window sum;
- `UpsertEach` loops over the grouped rows, and `Upserted` is the map comprehension.

Inputs the model does not compute are parameters:
- `now` is the UTC instant in whole seconds;
- `localToday` is the server's local date as a day number;
- `insertFails`, `commitFails` and `queryFails` say whether a database statement raised;
- `hasSummary` says whether the daily table exists.

## Model

| member | source | states |
|---|---|---|
| `Validation.SlugPatternOnStripped` | blueprints/analytics.py:17 | On a string without edge whitespace, `SLUG_RE` (whose `$` also tolerates one trailing newline) accepts exactly the non-empty `[a-z0-9-]` strings |
| `Validation.StoredUa` | blueprints/analytics.py:163 | The stored User-Agent is a prefix of the header, exactly `min(len(header), 255)` characters long: the whole header when it is that short |
| `Validation.IsBotRequest` | blueprints/analytics.py:92-96 | A User-Agent shorter than three characters (the shortest signature) is never a bot, and any header containing `bot` in any letter case is one |
| `Validation.BotTestIgnoresCase` | blueprints/analytics.py:92-96 | The bot verdict is unchanged when the ASCII letters of the User-Agent are upper-cased (`BOT_UA_RE` is compiled with `IGNORECASE`), and an empty User-Agent is never a bot |
| `Validation.BotOnTruncatedImpliesBot` | blueprints/analytics.py:92-96 | If the bot test flags the truncated User-Agent, it would also flag the full header |
| `Validation.SignatureBeyondLimitMissed` | analytics.py:87-91 | A header whose only signature ("Googlebot") starts after character 255 is a bot by the signature rule, yet the truncated value is not flagged |
| `Validation.NormalisedFields` | blueprints/analytics.py:130-132 | The normalised id (`strip().lower()`) has no leading or trailing whitespace |
| `Validation.ValidateGuideData` | blueprints/analytics.py:125-150 | An accepted id is a slug of at most 100 characters. Title and href errors carry the accepted id, and every other error carries `""`. A falsy payload gives `empty_payload`. A truthy non-object payload, or an object with a truthy non-string field, raises: the uncaught 500 |
| `Validation.CheckFields` | analytics.py:130-145 | The field checks never raise and never produce `invalid_back_type`. Accepted ids are slugs within the limit |
| `Validation.AcceptedIff` | blueprints/analytics.py:125-150 | A payload is accepted iff it is a non-empty object with string-or-falsy fields, and its normalised id is a slug of at most 100 characters, its title at most 200 and its href at most 300; the returned id is that normalised id |
| `Validation.ErrorPrecedence` | blueprints/analytics.py:127-141 | For a non-empty object, `missing_guide_id`, `guide_id_too_long` and `invalid_guide_id` each occur exactly when their condition holds and every earlier id check passed |
| `Validation.IdErrorOrder` | analytics.py:125-135 | The same id-check precedence, stated on the normalised fields |
| `Validation.LengthErrorPrecedence` | blueprints/analytics.py:143-150 | `title_too_long` occurs exactly for a valid id with a stripped title over 200. `href_too_long` occurs exactly for a valid id, a title within 200 and a stripped href over 300 |
| `Validation.LengthErrorOrder` | analytics.py:137-145 | The same title/href precedence, stated on the normalised fields |
| `Validation.AcceptedNeedsNoTruncation` | blueprints/analytics.py:182-183 | For an accepted payload the `[:200]` and `[:300]` cuts leave title and href unchanged |
| `Validation.ValidateBackLink` | blueprints/analytics.py:234-246 | An accepted back link has id `back_context` or `back_index`, the stripped `guide_id`. Its title and href are the stripped fields cut to 200 and 300 characters, so they stay within those limits. A rejection is `invalid_guide_id` or `invalid_back_type`, and a non-object body raises. An object body with a truthy non-string `guide_id`, `guide_title` or `href` also raises (the uncaught 500), before any id check |
| `Validation.BackLinkOutcome` | blueprints/analytics.py:236-246 | The stripped (not lower-cased) id is accepted iff it is one of the two back-link ids. An empty or over-long id gives `invalid_guide_id`, and any other id gives `invalid_back_type` |
| `Ingest.ClickRow` | analytics.py:177-179 | The stored row carries a title within 200, an href within 300 and the server timestamp `now` |
| `Ingest.VerdictCases` | blueprints/analytics.py:176-208 | After the prechecks: a validation error answers 400 with its code, a raised error 500, an accepted payload 200 unless the insert fails (500) |
| `Ingest.GuideClick` | blueprints/analytics.py:152-210 | Any failure leaves the raw table unchanged with the status of its error. The answer is OK iff the request is JSON, not a bot, parses, validates and the insert succeeds; then exactly one row (normalised id, title, href, truncated UA, `now`) is appended |
| `Ingest.Precheck` | blueprints/analytics.py:159-173 | The first three checks pass iff the request is JSON, the truncated User-Agent is not a bot and the body decodes. A bot is reported only for a JSON request, and an undecodable body only for a JSON request from a non-bot |
| `Ingest.GuideClickCheckOrder` | analytics.py:154-168 | A non-JSON request gets 400 `invalid_content_type`, whatever else holds. A bot then gets 429 `bot_filtered` before the body is parsed. An undecodable body then gets 400, and that 400 is Flask's own `BadRequest` reply, not the view's `invalid_json` |
| `Ingest.GuideClickValidationOrder` | analytics.py:170-205 | Once the prechecks pass, a validation error answers 400 with its code before any insert. Otherwise the insert decides between 500 and OK |
| `Ingest.GuideBackClick` | blueprints/analytics.py:212-273 | The back-click endpoint answers OK iff the prechecks pass, the back link is accepted and the insert succeeds. It then appends exactly one row: the validated id, title and href of the body, the truncated UA and `now` |
| `Ingest.GuideBackClickValidationOrder` | blueprints/analytics.py:218-271 | A failed precheck answers with that precheck's failure. After the prechecks, a rejected id or kind answers 400 with its code (`invalid_guide_id` or `invalid_back_type`). A body whose fields Python cannot read gives the uncaught 500. Only an accepted link reaches the insert, which decides between 500 and OK |
| `Ingest.BackClickSharesPrecheck` | blueprints/analytics.py:218-230 | Content type, bot and JSON failures answer the same on both click endpoints |
| `Store.GuidesOnIffCounted` | blueprints/analytics.py:620-627 | A guide appears in yesterday's `GROUP BY guide_id` iff it has at least one raw row that day |
| `Store.DayCounts` | analytics.py:371-378 | The grouped counts hold exactly the guides with rows on the day, each with its row count |
| `Store.KeepFrom` | blueprints/analytics.py:640-644 | The purge keeps no row dated before the cutoff |
| `Store.KeepFromCounts` | analytics.py:391-394 | The purge removes exactly the rows dated before the cutoff and keeps every other row with its multiplicity |
| `Store.KeepFromIdempotent` | analytics.py:391-394 | Purging twice with the same cutoff removes nothing more |
| `Store.CountOnKept` | blueprints/analytics.py:617-644 | The purge does not change the count of any day on or after the cutoff |
| `Rollup.Gate` | blueprints/analytics.py:599-608 | An unset or empty `ADMIN_SECRET` gives 500 `not_configured` whatever the header. Otherwise a different header gives 403 `unauthorized`. The gate passes iff the secret is set, non-empty and equal to the header |
| `Rollup.Upserted` | blueprints/analytics.py:630-637 | Each upserted key becomes its old value (0 when absent) plus the guide's count. Keys are only added, and every other key keeps its value |
| `Rollup.UpsertEach` | analytics.py:381-388 | The per-row upsert loop yields the upserted table and counts one per guide |
| `Rollup.RollupEffect` | blueprints/analytics.py:617-646 | A committed rollup reports as many aggregated guides as there are guides with rows yesterday and as many purged records as rows removed; the raw table becomes the purge of the old one |
| `Rollup.Rollup` | blueprints/analytics.py:592-686 | A refused gate or a failing statement/commit leaves both tables unchanged with the matching error response. Otherwise both effects are committed together and reported |
| `Rollup.RollupFrame` | analytics.py:368-397 | Nothing else changes: no daily row disappears, daily rows of other days or of guides without clicks yesterday keep their value, and raw rows on or after the cutoff survive with their multiplicity |
| `Rollup.RollupAddsYesterday` | analytics.py:368-388 | `daily[(yesterday, g)]` grows by exactly g's raw count for yesterday, and `aggregated_guides` is the number of guides with clicks yesterday |
| `Rollup.RollupTwiceCountsTwice` | blueprints/analytics.py:617-646 | A second rollup on the same day adds yesterday's counts again (twice in total) and purges nothing |
| `Rollup.RollupNotIdempotent` | analytics.py:381-388 | A single click yesterday makes two rollups on the same day differ from one |
| `Query.ArgOr` | blueprints/analytics.py:555-556 | A missing or unparsable query argument gives the default, and a parsed one gives its value |
| `Query.Clamp` | blueprints/analytics.py:398-403 | The clamped value lies in `[1, hi]`, equals the argument when it already does, and is the nearer bound otherwise |
| `Query.TopGuidesWindow` | analytics.py:330-335 | `/top-guides` yields days in `[1,365]` (default 7) and limit in `[1,100]` (default 10), keeping in-range arguments |
| `Query.PopularWindow` | blueprints/analytics.py:555-560 | `/popular` yields days in `[1,365]` (default 30) and limit in `[1,20]` (default 5), keeping in-range arguments |
| `Query.SumDailyWindow` | blueprints/analytics.py:450-453 | The loop over the daily table yields, for exactly the guides with a row in the window, their summed clicks |
| `Query.CombinedTotals` | blueprints/analytics.py:447-466 | The `UNION ALL` + `SUM` totals equal, per guide, the daily-window sum plus the recent raw count, over the union of both guide sets |
| `Query.SummaryTotalOf` | blueprints/analytics.py:447-466 | A guide's total is its daily-window sum plus its count of raw rows dated today or on the two UTC days before it (`date('now', '-2 days')`) and stamped at or after `since` |
| `Query.RawTotals` | blueprints/analytics.py:472-479 | The fallback query's totals hold exactly the guides with a raw row stamped at or after `since`, each with the number of such rows (`COUNT(*)`) |
| `Query.MaxTotal` | blueprints/analytics.py:467 | The picked guide has a total no smaller than any other |
| `Query.RankByTotal` | blueprints/analytics.py:464-469 | `ORDER BY ... DESC LIMIT n` returns `min(n, #guides)` distinct guides with their true totals in descending order, and every guide left out has a total no larger than any returned one; ties are left unordered |
| `Query.TopGuidesSimple` | blueprints/analytics.py:422-546 | The summary path ranks the combined totals, the fallback ranks the raw totals, and any query failure returns `[]`. Rows are at most `limit`, distinct and descending. `TopRows` collects these promises for callers |
| `Query.RecentCountKept` | blueprints/analytics.py:457-461 | The purge does not change the recent raw count of a window that starts on or after the purge cutoff |
| `Query.RecentCountCoversDay` | blueprints/analytics.py:457-461 | The recent raw count includes every row of a day inside both its bounds |
| `Query.DailyWindowAfterUpsert` | blueprints/analytics.py:450-453 | Upserting a day inside the window raises the guide's daily-window sum by exactly its upserted count |
| `Query.SummaryCountsYesterdayTwice` | blueprints/analytics.py:447-469 | When the server's local date is the UTC date (the rollup runs with `localToday = DayOf(now)`), right after a rollup a window of at least 2 days counts yesterday's clicks of a guide twice, once from the daily table and once from the raw rows |
| `Query.EnrichRow` | blueprints/analytics.py:567-576 | A result row yields one entry iff its id is in the catalog, carrying the catalog's title, href and group with the row's clicks |
| `Query.Enrich` | blueprints/analytics.py:566-576 | Every enriched entry comes from a result row, and its metadata is the catalog's |
| `Query.EnrichComplete` | blueprints/analytics.py:566-576 | No result row whose id is in the catalog is dropped |
| `Query.EnrichKeepsOrder` | blueprints/analytics.py:566-576 | Filtering keeps the descending click order |
| `Query.EnrichAppend` | blueprints/analytics.py:566-576 | Filtering a concatenation gives the filtered parts concatenated, so kept rows keep their ranking order |
| `Query.EnrichDistinct` | blueprints/analytics.py:566-576 | Filtering keeps ids distinct |
| `Query.PopularGuides` | blueprints/analytics.py:548-582 | The response echoes the clamped window. Its guides are the catalog filter of a ranking `top_guides_simple` may return for that window: the top `limit` summary or raw totals, or `[]` when the query fails. So they are at most `limit` catalog guides with catalog metadata, ids distinct and clicks descending |
| `Catalog.Lookup` | guides_catalog.py:63-65 | Lookup finds nothing exactly for ids not in the table, and otherwise returns the stored record (the unique one when keys are distinct) |
| `Catalog.GetGuideById` | guides_catalog.py:63-65 | `get_guide_by_id` returns the stored record for a catalog key and nothing for any other string |
| `Catalog.ByGroupMembers` | guides_catalog.py:67-73 | A record is in the group filter iff it is the id-tagged record of a catalog entry of that group |
| `Catalog.ByGroupAppend` | guides_catalog.py:67-73 | Filtering distributes over concatenation, so catalog order is kept |
| `Catalog.GetGuidesByGroup` | guides_catalog.py:67-73 | `get_guides_by_group` lists exactly the id-tagged entries of that group |
| `Catalog.UnknownGroupEmpty` | guides_catalog.py:67-73 | A group other than the two shipped ones gives an empty list |
| `Catalog.Records` | guides_catalog.py:75-77 | Listing gives one id-tagged record per entry, in order |
| `Catalog.GetAllGuides` | guides_catalog.py:75-77 | `get_all_guides` returns 11 records, and looking each one up by its id gives back its title, href and group |
| `Catalog.TwoGroupsPartition` | guides_catalog.py:67-77 | When every entry is in group a or b, the two group lists together are a permutation of the full list |
| `Catalog.GroupsPartitionCatalog` | guides_catalog.py:4-60 | "Beginner Basics" and "Choosing an Account" partition `get_all_guides` |
| `Catalog.CatalogKeysDistinct` | guides_catalog.py:4-60 | The catalog's keys are distinct |
| `Catalog.ShippedCatalogConsistent` | guides_catalog.py:4-60 | Every shipped id is a slug of at most 100 characters, and its href is `"/guides/" + id` |
| `Catalog.SlugIdAccepted` | blueprints/analytics.py:125-150 | A payload carrying only a slug id of at most 100 characters is accepted with that id |
| `Catalog.CatalogIdsAccepted` | guides_catalog.py:4-60 | A click payload carrying any shipped catalog id passes ingestion validation |
| `GuideText.LinesOf` | scripts/update_guide_from_text.py:79 | Splitting on `\n` gives at least one line, and joining them back gives the text |
| `GuideText.FaqLinesMembers` | scripts/update_guide_from_text.py:82 | A line survives the pre-filter iff it is non-blank and its stripped, lower-cased text is not `common questions` |
| `GuideText.FaqLinesAppend` | scripts/update_guide_from_text.py:82 | The pre-filter keeps the surviving lines in their original order: filtering `a + b` gives the filtered `a` followed by the filtered `b` |
| `GuideText.ParseFaq` | scripts/update_guide_from_text.py:76-121 | Running the question/answer state machine equals the declarative block reading `FaqBlocks` of the filtered, stripped lines |
| `GuideText.FaqStep` | scripts/update_guide_from_text.py:87-112 | One line appends at most one item, and only the complete pending pair. A blank line changes nothing the parse would return if the text ended there. A question line saves the pending pair and opens a new one, and an answer line emits nothing |
| `GuideText.FaqRunBlocks` | scripts/update_guide_from_text.py:87-119 | From any state, the state machine emits the pending question with its answer run, followed by the declarative blocks of the rest |
| `GuideText.FaqBlocksShape` | scripts/update_guide_from_text.py:100-119 | Every block's question is one of the lines and ends in `?`, every answer is non-empty, and there are at most as many blocks as question lines |
| `GuideText.ParseFaqShape` | scripts/update_guide_from_text.py:76-121 | Every emitted question is a kept stripped line ending in `?`, every answer is non-empty, and there are never more items than question lines |
| `GuideText.StepText` | scripts/update_guide_from_text.py:162-167 | Removing the `N.` prefix drops the whole leading digit run, the dot and the whitespace after it, and keeps the rest of the line as a suffix |
| `GuideText.BulletText` | scripts/update_guide_from_text.py:168-173 | Removing a bullet drops the bullet character and following whitespace, and keeps a suffix of the line |
| `GuideText.DigitParagraphKept` | scripts/update_guide_from_text.py:162-176 | A line that starts with a digit but has no `N.` prefix is appended whole, as a paragraph, and the section type is unchanged |
| `GuideText.MainStepEffect` | scripts/update_guide_from_text.py:133-178 | A heading closes the open section and opens an empty one after it. Any other line never opens, closes or renames a section, and inside a section a non-blank one adds its item text |
| `GuideText.MainRunBlocks` | scripts/update_guide_from_text.py:133-184 | From any state, the section builder closes the open section over its body run, then yields the declarative sections of the rest |
| `GuideText.ParseMain` | scripts/update_guide_from_text.py:124-184 | Running the section builder equals the declarative `MainBlocks` of the stripped lines. Each section takes its body up to the next heading, and its type is the kind of its last step or bullet line |
| `GuideText.MainBlocksTitles` | scripts/update_guide_from_text.py:146-157 | The section titles are exactly the heading lines, in order |
| `GuideText.ParseMainTitles` | scripts/update_guide_from_text.py:146-157 | The parser opens one section per heading line, and the titles are those lines in order |
| `GuideHtml.GenerateMainHtml` | scripts/update_guide_from_text.py:187-219 | The main HTML is each section rendered on its own, the renderings joined by newlines in order |
| `GuideHtml.SectionShape` | scripts/update_guide_from_text.py:191-217 | A section renders as the two openers, the title, the wrapper (steps/list only), one line per item in order, and the two closers. For steps the wrapper is `<ol class="guide__steps">` on line 3 with `</ol>` third from the end; for bullets it is `<ul class="guide__bullets">` and `</ul>` at the same places |
| `GuideHtml.BulletSplitsAtFirstColon` | scripts/update_guide_from_text.py:205-207 | A list item whose first `:` is before index 30 is rendered bold around the text before that colon |
| `GuideHtml.BoldSplitAt` | scripts/update_guide_from_text.py:205-207 | The bold head is exactly the text before the first colon, and the rest is everything after it |
| `GuideHtml.BulletWithoutEarlyColon` | scripts/update_guide_from_text.py:208-209 | A list item with no colon in its first 30 characters is rendered as a plain `<li>` |
| `GuideHtml.ItemLinesTag` | scripts/update_guide_from_text.py:196-214 | Each item line carries `<li>` for steps/list sections and `<p>` otherwise, and no other counted tag |
| `GuideHtml.SectionCounts` | scripts/update_guide_from_text.py:191-217 | A section holds one `<h2>`, and one `<li>` per item for steps/list sections or one `<p>` per item otherwise |
| `GuideHtml.MainHtmlCounts` | scripts/update_guide_from_text.py:187-219 | The count of each tag in the output is the sum of the per-section counts |
| `GuideHtml.MainHtmlOneTitlePerSection` | scripts/update_guide_from_text.py:187-219 | The main HTML has exactly one `<h2>` per section and no `<details>` |
| `GuideHtml.GenerateFaqHtml` | scripts/update_guide_from_text.py:222-239 | The FAQ HTML is the wrapper and heading lines, then each item's block rendered on its own and followed by a newline, in order, then `</div>` |
| `GuideHtml.DetailsBlocksShape` | scripts/update_guide_from_text.py:228-236 | The FAQ items render as consecutive 8-line blocks, item k's at offset 8k |
| `GuideHtml.FaqHtmlBlocks` | scripts/update_guide_from_text.py:222-239 | Lines 2+8k to 9+8k of the FAQ HTML are exactly item k's eight-line `<details>` block |
| `GuideHtml.FaqHtmlShape` | scripts/update_guide_from_text.py:222-239 | The FAQ HTML starts with the wrapper and the "Common questions" heading and ends with `</div>`. It has 3 + 8·n lines, and item k's `<details>`, question and answer lines are at 2+8k, 4+8k and 7+8k |
| `GuideHtml.FaqDetailsCount` | scripts/update_guide_from_text.py:222-239 | The FAQ HTML has exactly one `<details>` line per item |
| `Text.Strip` | blueprints/analytics.py:130-132 | `str.strip()` removes exactly the leading and trailing whitespace and leaves no whitespace at either edge |
| `Text.StripIdempotent` | scripts/update_guide_from_text.py:82-88 | Stripping an already stripped line changes nothing |
| `Text.LowerIdempotent` | blueprints/analytics.py:130 | Lower-casing twice equals lower-casing once |
| `Text.Split` | scripts/update_guide_from_text.py:79 | `split('\n')` yields separator-free parts that join back to the text |
| `Text.JoinAppend` | scripts/update_guide_from_text.py:219 | `'\n'.join` of two non-empty lists is the two joins with one separator between them |
| `Text.SplitJoin` | scripts/update_guide_from_text.py:130 | Splitting a join of separator-free parts gives the parts back |
| `Json.FieldOr` | blueprints/analytics.py:130-132 | `(data.get(k) or '')` yields `''` for a missing key and a string field's own text for a string field, and fails exactly for a truthy non-string field |

## Left out

- **Database engines.** The PostgreSQL branches, `get_db`, `analytics_db_connect`,
  `ensure_summary_table` and all DDL are left out. The SQLite branch's semantics is
  modelled over abstract tables, a sequence of raw rows and a `(day, guide_id)` map.
  The `rowcount` of the SQLite purge is modelled as the number of rows removed.
- **`get_top_guides`.** Its SQL, including the title picked by the LEFT JOIN, is not
  modelled; only the `/top-guides` clamp is.
- **`/migrate-tables`, `/debug-db`** and the ops scripts are left out: they do DDL,
  printing and interactive input.
- **File I/O in the text tooling.** `parse_text_file`, `update_guide_html`, `main`
  and the file handling of `scripts/update_guide_from_text.py` are regex and file
  I/O over template text.
- **Flask plumbing.** Requests, `jsonify`, logging and argument parsing are left out.
  - A query argument is an `Option<int>`: absent or unparsable is `None`, and the
    default applies.
  - A request body is an already parsed JSON value, or `None` when it does not
    decode.
- **Clocks and calendars.**
  - Instants are whole seconds since the epoch, and a day is `t / 86400`.
  - The ISO-8601 text comparison `ts_utc >= since` is modelled as a comparison of
    instants.
  - Time zones are reduced to two parameters: the UTC instant `now` and the server's
    local day `localToday`, from which the rollup's `yesterday` is taken.
- **Non-ASCII digits.** In `parse_main_content` the regex class `\d` also matches
  Unicode decimal digits. The model treats only `0`–`9` as digits.
- **Unicode case mapping.** `Text.Lower` maps the ASCII capitals, KELVIN SIGN (to
  `k`) and dotted capital I (to two characters). Every other character is kept as it
  is, whereas Python lower-cases all cased letters. No other non-ASCII character
  lower-cases to ASCII, so neither slug acceptance nor the accepted id can differ.
  The regex case folding of the bot test also equates long s and dotless i.
- `Query.PopularGuides`: does not model the 500 `analytics_unavailable` answer for
  an exception raised outside `top_guides_simple`. Such an exception only comes from
  serialisation, which is not modelled. A failing query is modelled, and it yields
  `[]`.
- `Text.Lower`: states only that the result is no shorter than its input. The model
  needs `LowerIdempotent`, `LowerAppend` and the edge-space lemma, not a full
  description of Python's case table.
- **Round trip of the HTML output.** The HTML generators are modelled up to their
  list of lines (`MainHtmlLines`, `FaqHtmlLines`). The final `'\n'.join` is applied
  and stated per section and per item, but no lemma splits the output back into
  lines. That would require proving that the
  interpolated text contains no newline, and the parsers' stripped lines do not
  guarantee it.
- `Ingest.GuideClickCheckOrder`: does not model the body of the 400 for an
  undecodable request. `get_json(force=True)` raises werkzeug's `BadRequest`,
  which the views' `except (ValueError, TypeError)` does not catch, so Flask
  answers with its own error page. The view's `invalid_json` reply is never sent.
  The model records only the status and the failure `UndecodableBody`.
- **Unused lookahead.** The `next_line` lookahead in `parse_main_content` is computed
  but never used, so it is not modelled.
- **Documented behaviour the code does not have.** The code is followed in these
  cases:
  - The rollup is described as safe to re-run, but the code adds yesterday's counts
    again on every run (`Rollup.RollupNotIdempotent`).
  - The popular-guides ranking is described as breaking ties by id, but the code's
    `ORDER BY total DESC` leaves ties unordered, and so does `Query.RankByTotal`.
  - After a rollup, the summary query counts yesterday's clicks twice
    (`Query.SummaryCountsYesterdayTwice`).
- **Client-side code.** The event emitter and rate limiter in the site's JavaScript
  are not part of this model.

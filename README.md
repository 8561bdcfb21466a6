# Repeater directory and web search core of aprs-assistant, in Dafny

aprs-assistant is an APRS chat bot for amateur-radio operators. This project
models the parts of it that compute things:

- **Repeater directory.** This covers the two searches of
  `src/aprs_assistant/_repeaters.py`, by location and by callsign.
  - The band arguments are flattened and a bare mode pattern becomes a list.
  - The bounding box is widened when it wraps.
  - Rows are screened for distance, mode and band.
  - Results are sorted by distance, stably.
  - `format_repeater` and its two text helpers are also modelled.
- **Building the directory.** This covers `tools/parse_repeaters/create_db.py`.
  - `_strip` and `_upper`.
  - The sixteen parameters that `insert_repeater_record` binds.
  - The primary key that rejects a duplicate `id`.
  - The insert loop, and the single commit after the last record.
- **Web search.** This covers `src/aprs_assistant/_bing.py`.
  - `_get_market` over the market table.
  - The argument checks that `_bing_api_call` makes before it sends a request.
  - The anchor scrub of `_markdown_link`.
  - The snippets of `bing_search`:
    - web pages with their deep links, news, videos (YouTube only) and related searches;
    - their `__POS__` placeholders;
    - both layouts of the report: interleaved in the ranking's order, or categorized.

External collaborators are parameters of the model:

| collaborator | parameter | what `None` means |
|---|---|---|
| great-circle distance (`haversine`) | `Metric` | — |
| `re.search` | `Matcher` | — |
| re-quoting of a link target (`urlparse`, `unquote`, `quote`, `urlunparse`) | `Requote` | the call raised `ValueError` |
| the `BING_API_KEY` environment variable | `apiKey` | the variable is unset |
| the repeater database file | `Option<seq<Record>>` | the file is absent |
| the decoded API response | `Response` | — |

In the database, table order stands for the order in which SQLite returns rows.

Python's stable `list.sort` is modelled as insertion sort. With total keys that
gives the same result as any stable sort.

SQLite's `LIKE` is modelled exactly: `%`, `_`, and ASCII case folding.

Modules:

| module | file | models |
|---|---|---|
| `Wrappers` | `wrappers.dfy` | `Option`, `Result` |
| `Seqs` | `seqs.dfy` | `Filter` and `Map` on sequences |
| `PyText` | `text.dfy` | Python's `str.isspace`, `strip`, `upper` (ASCII letters), `str(int)`, `split`, `replace`, `join` |
| `PyNumber` | `py_number.dfy` | `"%.Nf"` formatting of a real |
| `SqlLike` | `sql_like.dfy` | SQLite `LIKE` |
| `Repeaters` | `repeater_model.dfy` | records, mode and band constants, band flattening, the per-row checks and the screening loop |
| `RepeaterSort` | `repeater_sort.dfy` | the stable sort by distance |
| `RepeaterSearch` | `repeater_search.dfy` | the two searches |
| `RepeaterFormat` | `repeater_format.dfy` | `_is_null_or_whitesace`, `_normalize_spaces`, `format_repeater` |
| `Ingest` | `ingest.dfy` | `create_db.py` |
| `BingMarkets` | `bing_markets.dfy` | the market table, `_get_market`, the checks of `_bing_api_call` |
| `BingSearch` | `bing_search.dfy` | `_markdown_link` and `bing_search` |

Behaviour of the code worth knowing:

- **The callsign search does not treat the callsign as a literal prefix.** It
  sends it as a `LIKE` pattern, so `%` and `_` in the callsign act as wildcards
  (`SqlLike.PrefixLike`, `SqlLike.UnderscoreIsWildcard`). Only a wildcard-free callsign is a
  case-insensitive prefix (`SqlLike.LiteralPrefixLike`,
  `RepeaterSearch.CallsignResultsStartWith`).
- **The callsign search accepts latitude without longitude, and the reverse.** It
  raises no error. It just computes no distance and does not sort
  (`RepeaterSearch.CallsignDistances`, `RepeaterSearch.CallsignResultOrder`).
- **Ingestion has no type check of its own.** A record fails only in these cases:
  - a key is missing;
  - `strip` is applied to a non-text value;
  - SQLite cannot bind a value;
  - the `id` is already taken.

  Nothing is committed after a failure.
- **Web search: numbering of the related-searches block.** In the interleaved
  layout this block counts as a numbered result whenever its text contains
  `__POS__`, because every snippet is tested (`BingSearch.RelatedGroupCount`,
  `BingSearch.RelatedTextNumbered`). In the categorized layout it is never
  counted (`BingSearch.CategorizedCount`).
- **Web search: the anchor scrub.** `_markdown_link` leaves the anchor
  unscrubbed when re-quoting raises `ValueError`.
- **Web search: response shape.** A response without `rankingResponse` raises
  `KeyError` in the interleaved layout (`NoRanking`). Ranking items without
  `value.id` are skipped.

## Model

| member | source | states |
|---|---|---|
| `Repeaters.LeavesAreOccurrences` | src/aprs_assistant/_repeaters.py:95-100 | a band is among the flattened leaves exactly when it occurs somewhere in the nested band argument |
| `Repeaters.LeavesOfAreOccurrences` | src/aprs_assistant/_repeaters.py:96-98 | flattening a list of band arguments yields exactly the bands occurring in one of its elements |
| `Repeaters.LeavesOfSnoc` | src/aprs_assistant/_repeaters.py:97-98 | the flattening of a list extended by one element is the old flattening followed by that element's leaves, in order |
| `Repeaters.FlatListLeaves` | src/aprs_assistant/_repeaters.py:19-22 | a flat list of bands, as in `BAND_2M` … `BAND_GMRS`, flattens to itself |
| `Repeaters.FlattenBands` | src/aprs_assistant/_repeaters.py:95-105 | the recursive append leaves the accumulator followed by all leaves of the argument, in depth-first order |
| `Repeaters.CheckMode` | src/aprs_assistant/_repeaters.py:194-201 | the mode loop raises exactly when patterns are given and the mode is NULL, and keeps the row exactly when some pattern matches the mode |
| `Repeaters.CheckBand` | src/aprs_assistant/_repeaters.py:204-213 | the band loop keeps the row exactly when the frequency lies within some band, bounds included, scaled from MHz to Hz |
| `Repeaters.FaultPersists` | src/aprs_assistant/_repeaters.py:168-215 | once a row makes the screening loop raise, the whole search raises whatever rows follow |
| `Repeaters.SurvivorsFailIff` | src/aprs_assistant/_repeaters.py:168-215 | the screening loop raises exactly when some fetched row reaches the mode check with a NULL mode |
| `Repeaters.SurvivorsAreFiltered` | src/aprs_assistant/_repeaters.py:168-215 | when the loop completes it keeps exactly the annotated rows that pass every check, in fetch order |
| `Repeaters.Scan` | src/aprs_assistant/_repeaters.py:166-215 | the loop's result is the screening specification, and every kept repeater passes the distance, mode and band checks |
| `RepeaterSearch.Widen` | src/aprs_assistant/_repeaters.py:127-133 | a box wrapping over a pole spans all latitudes, one wrapping over the antimeridian all longitudes; otherwise each bound is unchanged; the box only grows |
| `RepeaterSearch.AntimeridianRowFetched` | src/aprs_assistant/_repeaters.py:131-133 | across the antimeridian every row in the latitude band is fetched |
| `RepeaterSearch.PoleRowFetched` | src/aprs_assistant/_repeaters.py:128-130 | over a pole every row in the longitude band is fetched |
| `RepeaterSearch.SearchByLocation` | src/aprs_assistant/_repeaters.py:89-221 | no database gives `None`; otherwise every result is within the cut-off distance and the results are sorted by distance |
| `RepeaterSearch.LocationWithinRadius` | src/aprs_assistant/_repeaters.py:189-191 | every result of the location search has a distance no greater than `max_distance` |
| `RepeaterSearch.LocationResultsSortedPermutation` | src/aprs_assistant/_repeaters.py:166-221 | the results are the passing candidates reordered by non-decreasing distance, and equal distances keep fetch order |
| `RepeaterSearch.LocationMembership` | src/aprs_assistant/_repeaters.py:140-215 | a repeater is returned exactly when its row lies in the widened box and passes the distance, mode and band checks |
| `RepeaterSearch.ScreenFaultIff` | src/aprs_assistant/_repeaters.py:189-201 | a row raises exactly when it is within range, patterns are given and its mode is NULL |
| `RepeaterSearch.LocationFailsIff` | src/aprs_assistant/_repeaters.py:168-201 | the location search raises exactly when a fetched row within range has a NULL mode under a non-empty mode list |
| `RepeaterSearch.BarePatternIsOneElementList` | src/aprs_assistant/_repeaters.py:108-109 | a bare mode string searches exactly like a one-element list holding it |
| `RepeaterSearch.SearchByCallsign` | src/aprs_assistant/_repeaters.py:224-336 | no database gives `None`; otherwise every result carries a distance exactly when both coordinates were given |
| `RepeaterSearch.CallsignDistances` | src/aprs_assistant/_repeaters.py:246-249 | results carry a distance exactly when both latitude and longitude were given |
| `RepeaterSearch.CallsignResultOrder` | src/aprs_assistant/_repeaters.py:280-333 | the results are a permutation of the passing rows: in fetch order without an origin, stably sorted by distance with one |
| `RepeaterSearch.CallsignMembership` | src/aprs_assistant/_repeaters.py:256-328 | a repeater is returned exactly when its callsign matches `callsign || '%'` and it passes the mode and band checks |
| `RepeaterSearch.CallsignScreen` | src/aprs_assistant/_repeaters.py:306-326 | without a cut-off only the mode and band checks decide |
| `RepeaterSearch.CallsignResultsStartWith` | src/aprs_assistant/_repeaters.py:276 | for a callsign without wildcards every result's callsign starts with it, ignoring ASCII case |
| `RepeaterSort.InsertPermutes` | src/aprs_assistant/_repeaters.py:220 | inserting into the sorted prefix adds exactly the new repeater |
| `RepeaterSort.SortPermutes` | src/aprs_assistant/_repeaters.py:220 | sorting by distance is a permutation |
| `RepeaterSort.InsertSorted` | src/aprs_assistant/_repeaters.py:220 | inserting into a sorted list keeps it sorted |
| `RepeaterSort.SortedBySortByDistance` | src/aprs_assistant/_repeaters.py:220 | the sorted list has non-decreasing distances |
| `RepeaterSort.InsertStable` | src/aprs_assistant/_repeaters.py:220 | the inserted repeater goes after every repeater at the same distance |
| `RepeaterSort.SortStable` | src/aprs_assistant/_repeaters.py:220 | repeaters at equal distance keep their relative order (stability) |
| `RepeaterSort.ShiftIn` | src/aprs_assistant/_repeaters.py:220 | the shifting loop computes the stable insertion |
| `RepeaterSort.SortResults` | src/aprs_assistant/_repeaters.py:220 | the sort loop yields a sorted permutation of its input, the stable one |
| `SqlLike.PercentMatchesAll` | src/aprs_assistant/_repeaters.py:276 | `%` alone matches every callsign |
| `SqlLike.LiteralPrefixLike` | src/aprs_assistant/_repeaters.py:276 | for a wildcard-free prefix, `prefix || '%'` matches exactly the texts starting with it, ignoring ASCII case |
| `SqlLike.CallsignPrefixExamples` | src/aprs_assistant/_repeaters.py:276 | `KK7%` matches `KK7CMT` and not `K7ABC`; case does not matter |
| `SqlLike.PrefixLike` | src/aprs_assistant/_repeaters.py:276 | for any callsign without `%`, `callsign \|\| '%'` matches exactly the texts at least as long whose characters match it position by position, `_` accepting any character and others matching up to ASCII case |
| `SqlLike.UnderscoreIsWildcard` | src/aprs_assistant/_repeaters.py:276 | for any `%`-free callsign, changing the text's character at a position where the callsign has `_` never changes whether it matches |
| `RepeaterFormat.NullOrWhitespaceMeans` | src/aprs_assistant/_repeaters.py:45-50 | `_is_null_or_whitesace` holds of `None` and of exactly the all-whitespace strings |
| `RepeaterFormat.NormalizeSpaces` | src/aprs_assistant/_repeaters.py:54-57 | the result has no carriage return, never two newlines in a row, no double space, no space beside a newline, and no whitespace other than space and newline |
| `RepeaterFormat.NormalizeKeepsText` | src/aprs_assistant/_repeaters.py:54-57 | only whitespace changes: the other characters survive unchanged and in order |
| `RepeaterFormat.FormatRepeaterDistance` | src/aprs_assistant/_repeaters.py:71-77 | the text opens with callsign and city lines, then a `Distance: … km` line (three decimals) exactly when a distance is known, then the mode |
| `RepeaterFormat.FormatRepeaterDownlink` | src/aprs_assistant/_repeaters.py:61-63 | the downlink is the frequency in MHz with five decimals, followed by the stripped receive tone exactly when it is not blank |
| `RepeaterFormat.FormatRepeaterUplink` | src/aprs_assistant/_repeaters.py:65-67 | the uplink is frequency plus offset in MHz with five decimals, followed by the stripped transmit tone exactly when it is not blank |
| `RepeaterFormat.FormatRepeaterOffset` | src/aprs_assistant/_repeaters.py:69 | the offset line shows the offset in MHz with three decimals |
| `RepeaterFormat.FormatRepeaterDescription` | src/aprs_assistant/_repeaters.py:83-86 | the text ends after the offset line, or, for a non-blank description, with an empty line and the normalised description |
| `PyNumber.RoundHalfEven` | src/aprs_assistant/_repeaters.py:61 | the rounded value is within one half of the input, even on a tie, and exact on whole numbers |
| `PyNumber.FixedReadsBack` | src/aprs_assistant/_repeaters.py:61 | `"%.Nf"` writes a sign exactly for negatives, then digits, a point and N digits that read back as the rounded scaled value |
| `PyNumber.ExactDecimals` | src/aprs_assistant/_repeaters.py:69 | a value with at most N decimals is written exactly by `"%.Nf"` |
| `PyText.StripIsInfix` | tools/parse_repeaters/create_db.py:47-50 | `strip` removes whitespace at both ends and nothing else |
| `PyText.StripIdempotent` | tools/parse_repeaters/create_db.py:47-50 | stripping twice is stripping once |
| `PyText.UpperIdempotent` | tools/parse_repeaters/create_db.py:53-56 | upper-casing twice is upper-casing once |
| `PyText.StripUpperCommute` | tools/parse_repeaters/create_db.py:53-56 | stripping and upper-casing commute |
| `PyText.NatStrRoundTrip` | src/aprs_assistant/_bing.py:166 | `str(idx)` reads back as `idx` |
| `PyText.NatStrInjective` | src/aprs_assistant/_bing.py:166 | different positions get different numerals |
| `Ingest.NoneStaysNone` | tools/parse_repeaters/create_db.py:47-56 | `_strip` and `_upper` map `None` to `None`, accept text, and fail on every other value |
| `Ingest.StripKeepsInner` | tools/parse_repeaters/create_db.py:47-50 | `_strip` of a text is trimmed and is the text with only surrounding whitespace removed |
| `Ingest.UpperShape` | tools/parse_repeaters/create_db.py:53-56 | `_upper` of a text is trimmed, has no lower-case letter and equals the stripped text up to letter case |
| `Ingest.UpperIdempotentValue` | tools/parse_repeaters/create_db.py:53-56 | `_upper` is idempotent |
| `Ingest.StripIdempotentValue` | tools/parse_repeaters/create_db.py:47-50 | `_strip` is idempotent |
| `Ingest.FieldMapping` | tools/parse_repeaters/create_db.py:81-101 | column i of the row is the record's i-th field under its conversion (`_upper`, `_strip` or none), as SQLite binds it |
| `Ingest.NormalisedColumns` | tools/parse_repeaters/create_db.py:85-99 | callsign, category and mode hold NULL or trimmed upper-case text; the other text columns hold NULL or trimmed text |
| `Ingest.EachFieldOnce` | tools/parse_repeaters/create_db.py:84-99 | each of the sixteen parameters reads a different field |
| `Ingest.Database.constructor` | tools/parse_repeaters/create_db.py:11-41 | the new table is empty, in memory and on disk |
| `Ingest.Database.Insert` | tools/parse_repeaters/create_db.py:60-101 | an insert appends the prepared row when it succeeds and leaves the table unchanged when it fails; nothing is committed |
| `Ingest.Database.Commit` | tools/parse_repeaters/create_db.py:110 | the commit makes the file hold the connection's rows |
| `Ingest.Lookup` | tools/parse_repeaters/create_db.py:13 | the primary-key search finds exactly a row whose key equals the id |
| `Ingest.Ingest` | tools/parse_repeaters/create_db.py:104-110 | the loop commits exactly the table `Build` specifies, or stops at the first error with nothing committed |
| `Ingest.BuildStops` | tools/parse_repeaters/create_db.py:106-107 | an error raised at some record ends the loop with that error, whatever follows |
| `Ingest.RunRows` | tools/parse_repeaters/create_db.py:106-107 | a completed loop holds one row per prepared record, in order |
| `Ingest.OneRowPerRecord` | tools/parse_repeaters/create_db.py:104-110 | a successful build has one row per record, in input order, each the record's prepared row |
| `Ingest.DuplicateIdFails` | tools/parse_repeaters/create_db.py:13 | two records with the same non-NULL id make the build fail |
| `Ingest.NullIdNeverClashes` | tools/parse_repeaters/create_db.py:13 | a NULL id never clashes, because `INT PRIMARY KEY` admits several NULLs |
| `Ingest.MissingKeyAborts` | tools/parse_repeaters/create_db.py:84-99 | a record missing any of the sixteen keys makes the build fail |
| `BingMarkets.FindMarketFirst` | src/aprs_assistant/_bing.py:252-256 | the scan returns the first market whose region is the code, and nothing only when no market has it |
| `BingMarkets.GetMarketFound` | src/aprs_assistant/_bing.py:250-256 | `_get_market` returns the first table entry whose region equals the upper-cased code, else `None` |
| `BingMarkets.MarketsRegions` | src/aprs_assistant/_bing.py:17-56 | every market code has a region, which upper-cases to its last two letters |
| `BingMarkets.GetMarketIs` | src/aprs_assistant/_bing.py:250-256 | the first entry ending in the upper-cased code is the answer |
| `BingMarkets.GetMarketNone` | src/aprs_assistant/_bing.py:250-256 | a code that no entry ends in gives `None` |
| `BingMarkets.GetMarketCanada` | src/aprs_assistant/_bing.py:17-56 | `ca` resolves to `en-CA`, the first Canadian entry, not `fr-CA` |
| `BingMarkets.GetMarketUnitedKingdom` | src/aprs_assistant/_bing.py:17-56 | `uk` resolves to nothing, because the table spells it `en-GB` |
| `BingMarkets.ResolveMarketCases` | src/aprs_assistant/_bing.py:205-206 | only a two-character market is looked up; a resolved one is a table entry with that country, an unresolved one means no entry has it, and any other market passes unchanged |
| `BingMarkets.PrepareRequest` | src/aprs_assistant/_bing.py:203-227 | a missing key fails first, then a one-sided location; otherwise the request carries key, query, location exactly when given, resolved market, no decorations and raw text |
| `BingMarkets.MissingKeyFirst` | src/aprs_assistant/_bing.py:211-216 | without an API key the call fails for that reason, whatever the location |
| `BingSearch.ScrubClean` | src/aprs_assistant/_bing.py:244 | the scrubbed anchor has no brackets; brackets become spaces and nothing else changes |
| `BingSearch.MarkdownLinkText` | src/aprs_assistant/_bing.py:240-245 | when re-quoting succeeds, the link text between `[` and the first `]` is exactly the scrubbed anchor |
| `BingSearch.WebSnippetNumbered` | src/aprs_assistant/_bing.py:77-85 | every web snippet carries the `__POS__` placeholder |
| `BingSearch.DeepSnippetNumbered` | src/aprs_assistant/_bing.py:94 | every deep-link snippet carries the placeholder |
| `BingSearch.MediaSnippetNumbered` | src/aprs_assistant/_bing.py:103-114 | every news or video snippet carries the placeholder, even after `strip` |
| `BingSearch.CollectWeb` | src/aprs_assistant/_bing.py:73-96 | the web loop builds the flat snippet list and the per-id groups of its specification |
| `BingSearch.AddPage` | src/aprs_assistant/_bing.py:77-96 | one page appends its snippet and deep links to its id's group and to the flat list |
| `BingSearch.WebGroupsKeys` | src/aprs_assistant/_bing.py:87-89 | an id has a group exactly when some page has that id |
| `BingSearch.WebGroupsByPage` | src/aprs_assistant/_bing.py:87-96 | an id's group is the snippets of exactly the pages with that id, in page order |
| `BingSearch.WebGroupsNonEmpty` | src/aprs_assistant/_bing.py:87-89 | no web group is empty |
| `BingSearch.CollectNews` | src/aprs_assistant/_bing.py:99-116 | the news loop renders every item, in order |
| `BingSearch.CollectVideos` | src/aprs_assistant/_bing.py:122-142 | the video loop renders exactly the YouTube items, in order |
| `BingSearch.VideosKept` | src/aprs_assistant/_bing.py:126-127 | every YouTube video is listed and every listed video is a YouTube video |
| `BingSearch.CollectRelated` | src/aprs_assistant/_bing.py:148-152 | the related-searches loop builds the heading and one bullet line per text |
| `BingSearch.RelatedListed` | src/aprs_assistant/_bing.py:151-152 | each related search appears as its own `- text` line |
| `BingSearch.NumbersConsecutive` | src/aprs_assistant/_bing.py:163-168 | the placeholders are numbered consecutively from the starting count |
| `BingSearch.PosCountConcat` | src/aprs_assistant/_bing.py:164-165 | the count of numbered snippets adds up over concatenation |
| `BingSearch.NumberedConcat` | src/aprs_assistant/_bing.py:173-196 | numbering a concatenation numbers the second part from where the first left off |
| `BingSearch.NumberSnippets` | src/aprs_assistant/_bing.py:175-180 | the numbering loop appends the numbered snippets and advances the counter by the snippets holding `__POS__` |
| `BingSearch.RankedConcat` | src/aprs_assistant/_bing.py:159-170 | the ranked sequence of a split ranking is the concatenation of the parts |
| `BingSearch.RankedUnknown` | src/aprs_assistant/_bing.py:161-162 | ranking items without an id, or with an unknown id, contribute nothing |
| `BingSearch.Interleave` | src/aprs_assistant/_bing.py:159-170 | the interleaved loop numbers the groups in ranking order, and its count is the number of placeholders met |
| `BingSearch.WriteSection` | src/aprs_assistant/_bing.py:173-180 | a section is its heading followed by its numbered snippets |
| `BingSearch.Categorize` | src/aprs_assistant/_bing.py:172-198 | the categorized layout is the non-empty sections in web, news, video order, then the related block; the count is the numbered snippets |
| `BingSearch.CollectAnswers` | src/aprs_assistant/_bing.py:73-153 | collection yields the specified groups, web, news, video and related lists |
| `BingSearch.WriteInterleaved` | src/aprs_assistant/_bing.py:155-170 | the report is the heading with the count and the stripped interleaved content |
| `BingSearch.WriteCategorized` | src/aprs_assistant/_bing.py:171-200 | the report is the heading with the count and the stripped categorized content |
| `RepeaterFormat.IsNullOrWhitespace` | src/aprs_assistant/_repeaters.py:45-50 | defines `_is_null_or_whitesace`: `None`, or a text that strips to nothing; characterised by `NullOrWhitespaceMeans` |
| `RepeaterFormat.FormatRepeater` | src/aprs_assistant/_repeaters.py:60-86 | defines `format_repeater`: heading, optional distance line, the mode, downlink, uplink and offset lines, optional description; its layout is proved by the `FormatRepeater*` lemmas |
| `PyNumber.Fixed` | src/aprs_assistant/_repeaters.py:61-75 | defines `"%.Nf"` of a real: sign, whole digits, point and N digits of the value rounded half to even; characterised by `FixedReadsBack` |
| `SqlLike.Like` | src/aprs_assistant/_repeaters.py:276 | defines SQLite's `LIKE` without `ESCAPE`: `%` any run, `_` any one character, others equal up to ASCII case; characterised by `PrefixLike` |
| `RepeaterSearch.LocationSearch` | src/aprs_assistant/_repeaters.py:89-221 | defines the location search: no file gives no result; otherwise the widened box's rows, screened and sorted by distance; characterised by `LocationMembership` and `LocationResultsSortedPermutation` |
| `RepeaterSearch.CallsignSearch` | src/aprs_assistant/_repeaters.py:224-336 | defines the callsign search: no file gives no result; otherwise the `LIKE` rows, screened, sorted only with an origin; characterised by `CallsignMembership` and `CallsignResultOrder` |
| `Ingest.StripValue` | tools/parse_repeaters/create_db.py:47-50 | defines `_strip` on a JSON value; characterised by `NoneStaysNone` and `StripKeepsInner` |
| `Ingest.UpperValue` | tools/parse_repeaters/create_db.py:53-56 | defines `_upper` on a JSON value; characterised by `NoneStaysNone` and `UpperShape` |
| `Ingest.Prepare` | tools/parse_repeaters/create_db.py:81-101 | defines the parameter tuple of `insert_repeater_record`, or the error building or binding it raises; characterised by `FieldMapping` and `NormalisedColumns` |
| `BingMarkets.GetMarket` | src/aprs_assistant/_bing.py:250-256 | defines `_get_market`; characterised by `GetMarketFound` |
| `BingSearch.MarkdownLink` | src/aprs_assistant/_bing.py:240-247 | defines `_markdown_link`: the scrubbed anchor and re-quoted target, or the raw anchor and target when re-quoting raises; characterised by `MarkdownLinkText` |
| `BingSearch.WebSnippet` | src/aprs_assistant/_bing.py:77-85 | defines a web page's snippet: placeholder, label, link, snippet text, facts and mentions; characterised by `WebSnippetNumbered` |
| `BingSearch.DeepSnippet` | src/aprs_assistant/_bing.py:94 | defines a deep link's snippet; characterised by `DeepSnippetNumbered` |
| `BingSearch.MediaSnippet` | src/aprs_assistant/_bing.py:103-114 | defines a news or video snippet, stripped, then date, facts and mentions (the same text at lines 129-140); characterised by `MediaSnippetNumbered` |
| `BingSearch.Groups` | src/aprs_assistant/_bing.py:61-153 | defines the `snippets` dictionary: web groups, then non-empty news and videos, then related searches, each overwriting an equal id; characterised by `WebGroupsByPage`, `GroupsNonEmpty` and `RelatedGroupCount` |
| `BingSearch.BingSearch` | src/aprs_assistant/_bing.py:59-200 | a refused request fails with its reason; interleaving without a ranking fails; otherwise the report is the interleaved or categorized one |
| `BingSearch.AnswersNumbered` | src/aprs_assistant/_bing.py:73-145 | every web, news and video snippet carries the placeholder |
| `BingSearch.CategorizedCount` | src/aprs_assistant/_bing.py:173-200 | in the categorized layout the count is exactly the number of web, news and video snippets |
| `BingSearch.GroupsNonEmpty` | src/aprs_assistant/_bing.py:87-153 | no registered group is empty, because empty news and video lists are not registered |
| `BingSearch.RankedNumbered` | src/aprs_assistant/_bing.py:159-168 | when every group is numbered, every ranked snippet is numbered |
| `BingSearch.InterleavedCount` | src/aprs_assistant/_bing.py:155-170 | without related searches the interleaved count is exactly the number of ranked snippets |
| `BingSearch.EmptyNewsIgnored` | src/aprs_assistant/_bing.py:118-119 | an empty news answer registers nothing |
| `BingSearch.EmptyVideosIgnored` | src/aprs_assistant/_bing.py:144-145 | an empty video answer, or one with no YouTube video, registers nothing |
| `BingSearch.RelatedGroupCount` | src/aprs_assistant/_bing.py:149-153 | related searches register their stripped block as one group, numbered exactly when it contains `__POS__` |
| `BingSearch.RelatedTextNumbered` | src/aprs_assistant/_bing.py:150-153 | a related search whose text is `__POS__` makes the block numbered |

## Left out

- The great-circle distance (`haversine`) and the box corners (`inverse_haversine`) are floating-point trigonometry. The distance is the `Metric` parameter, and the four corners are an input `Box` that `Widen` then corrects. Distances and frequencies are exact reals, not IEEE doubles.
- `Repeaters.Record`: the columns `id`, `latitude`, `longitude`, `frequency`, `offset` and `operational` are assumed non-NULL, although the ingestion script stores a JSON `null` in them as NULL. Three failures of the code on such rows are therefore not modelled. A NULL frequency under a band filter raises `TypeError` at `lf <= record.frequency` (lines 209 and 322 of `src/aprs_assistant/_repeaters.py`). NULL coordinates make `haversine` fail (lines 186 and 303). A NULL frequency or offset makes `format_repeater` fail (lines 61, 65 and 69). The "raises exactly when" statements (`Repeaters.SurvivorsFailIff`, `RepeaterSearch.ScreenFaultIff`, `RepeaterSearch.LocationFailsIff`) hold for rows whose numeric columns are present.
- The regular-expression engine behind `re.search` is the `Matcher` parameter. Only the mode patterns are kept, as strings.
- SQLite itself is not modelled. This covers connections, `CREATE TABLE` and `CREATE INDEX`, column type affinity, closing the connection, and the `os.path.isfile` test. The database is an `Option` over a sequence of rows.
- `Ingest.SameKey`: compares keys as they are bound. The conversion that the `INT` column's affinity applies to numeric text before comparing is not modelled.
- Reading and decoding `repeaters.json` is not modelled; the records are the input.
- `PyText.Upper`: maps the ASCII letters only. Python's `str.upper` also maps other Unicode letters.
- The Bing HTTP request is not modelled, nor the decoding of its JSON response or `print(response.text)`. The response is the `Response` parameter. The environment variable is the `apiKey` parameter.
- The text of the `X-Search-Location` header is not modelled. The request records the location as a pair.
- `urlparse`, `unquote`, `quote` and `urlunparse` are the `Requote` parameter.
- Market arguments that are not strings are not modelled.
- Missing keys in the response are not modelled, except `rankingResponse` and a ranking item's `value.id`. Examples are a page without `snippet`, or a fact without `label`.
- Band leaves that are not pairs are not modelled. The band argument is a nested list of ranges.
- `src/aprs_assistant/_bot.py`, `_gpt.py`, `_location.py`, `_tool_definitions.py`, `_constants.py` and `__main__.py` are not part of this model.

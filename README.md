# Apple Music year report, modelled in Dafny

AppleMusicAnalyzer reads the play-activity export of a streaming music
service and writes a year-in-review report. This project models its core,
`AppleMusicAnalyzer/Music.py`:

- `Song.__init__`: a listening event, with the device it was played on
  derived from the `Build Version` cell.
- `Music.read`: fills a missing start or end timestamp from the other one.
  It drops rows with no timestamp at all or no song name. It keeps a row
  only when its start year (in UTC, the source time) is the target year.
- `getTopSongs`, `getTopArtists`, `getTopAlbums`: thirteen counters per
  dimension. Index 0 is overall and 1..12 are the months, read after the
  shift to display time (Asia/Shanghai, UTC+8). Each call appends the
  thirteen `most_common(n)` rankings.
- `Counter.most_common(n)`: a stable sort by count, largest first, cut to
  n entries.
- `getHeatMap`: the per-day play counter in display time.
- `getTop`, and `generate_markdown` as the report string it builds.

Modules, one per file:

- `Calendar`: dates, the +8 h shift, a day ordinal.
- `Text`: `str(int)`, substring test.
- `Counters`: `Counter` as an insertion-ordered sequence of (key, count) pairs.
- `Ranking`: `most_common`.
- `Songs`: events, device, row handling.
- `Aggregation`: buckets and day counts.
- `Report`: the markdown as a sequence of lines.
- `MusicAnalyzer`: the `Music` class, whose methods loop and update its
  fields as the source does.

## Model

| member | source | states |
|---|---|---|
| Calendar.ToDisplayShiftsEightHours | AppleMusicAnalyzer/Music.py:82 | the display timestamp is the same instant eight hours later on the clock, rolling over into the next day, month and year |
| Calendar.DisplayMonth | AppleMusicAnalyzer/Music.py:82-83 | the month read in display time is always a valid bucket index 1..12 |
| Calendar.NewYearInDisplayTime | AppleMusicAnalyzer/Music.py:82-83 | from 16:00 UTC on 31 December, the display date is 1 January of the next year, so the month is 1 |
| Calendar.SameDayInDisplayTime | AppleMusicAnalyzer/Music.py:82-83 | before 16:00 UTC, the display date and month equal the source date and month |
| Calendar.NextDayIsFollowingDay | AppleMusicAnalyzer/Music.py:82 | the rollover date of the shift is the day whose ordinal is one more |
| Text.IntToString | AppleMusicAnalyzer/Music.py:47 | `str(year)`: a non-empty decimal string, with a leading minus exactly for negative years |
| Text.NatToString | AppleMusicAnalyzer/Music.py:153 | a play count is printed as decimal digits without leading zeros |
| Text.NatToStringRoundTrip | AppleMusicAnalyzer/Music.py:153 | the printed digits read back as the count |
| Text.ContainsIsSubstring | AppleMusicAnalyzer/Music.py:21-24 | the left-to-right scan used for `marker in device` holds exactly when the marker occurs somewhere in the string |
| Counters.Increment | AppleMusicAnalyzer/Music.py:83-84 | `c[k] += 1` raises the count of k by one and no other; a new key is appended after the existing keys |
| Counters.IncrementTotal | AppleMusicAnalyzer/Music.py:83-84 | each increment adds exactly one to the sum of the counts |
| Counters.IncrementWellFormed | AppleMusicAnalyzer/Music.py:83-84 | increments keep every key stored once with a positive count |
| Counters.PositiveIffStored | AppleMusicAnalyzer/Music.py:87 | a key is stored (counted by `len`) exactly when its count is positive |
| Counters.EntryIsCount | AppleMusicAnalyzer/Music.py:86 | each stored pair carries the counter's value for its key |
| Ranking.InsertByCountPermutes | AppleMusicAnalyzer/Music.py:86 | an insertion step of the sort loses and adds no pair |
| Ranking.InsertByCountSorted | AppleMusicAnalyzer/Music.py:86 | an insertion step keeps the counts non-increasing |
| Ranking.InsertByCountStable | AppleMusicAnalyzer/Music.py:86 | an insertion step keeps pairs of equal count in their original order |
| Ranking.SortByCountProperties | AppleMusicAnalyzer/Music.py:86 | the sort is a permutation of the counter, ordered by count descending, and stable |
| Ranking.PrefixKeepsOrder | AppleMusicAnalyzer/Music.py:86 | cutting a stable reordering keeps, for each count, the earliest-inserted keys with that count |
| Ranking.PrefixLargest | AppleMusicAnalyzer/Music.py:86 | a cut of the sorted sequence stays sorted, and no dropped pair counts more than a kept one |
| Ranking.MostCommonIsTopN | AppleMusicAnalyzer/Music.py:86 | `most_common(n)`: length min(n, distinct keys), or 0 when n <= 0. Counts do not increase. Each entry is a stored pair with its true count. Equal counts keep insertion order, and the earliest ones are kept. No left-out key counts more than a kept one |
| Ranking.MostCommonOfNothing | AppleMusicAnalyzer/Music.py:86 | n <= 0 or an empty counter gives an empty ranking |
| Songs.DevicePriority | AppleMusicAnalyzer/Music.py:13-26 | a string containing "iTunes" gives "MacBook Pro"; otherwise one containing "iPhone" gives "iPhone"; otherwise the device stays `''`; a non-string gives "iPhone" |
| Songs.BothMarkersGiveDesktop | AppleMusicAnalyzer/Music.py:20-24 | a build string naming both applications is classified as the desktop |
| Songs.MakeSong | AppleMusicAnalyzer/Music.py:15-26 | the event keeps the timestamp and the three names and classifies the device from the build version |
| Songs.Normalize | AppleMusicAnalyzer/Music.py:55-62 | a row survives exactly when it has some timestamp and a song name. A missing timestamp is then copied from the other one, and nothing else changes |
| Songs.NormalizeIdempotent | AppleMusicAnalyzer/Music.py:55-60 | filling is idempotent: a filled row is left as it is |
| Songs.LoadRow | AppleMusicAnalyzer/Music.py:55-70 | a row yields an event exactly when it survives and its start year in source time is the target year. The event is built from the filled start timestamp (the end time when the start is missing), the row's song, artist and album names and the device classified from its build version |
| Songs.LoadedAppend | AppleMusicAnalyzer/Music.py:53-72 | loading is row by row: the events of consecutive row blocks are concatenated, in row order |
| Songs.LoadedStep | AppleMusicAnalyzer/Music.py:53-72 | one more row adds exactly that row's event, if any, at the end |
| Songs.LoadedExactlyTheUsableRows | AppleMusicAnalyzer/Music.py:61-71 | every loaded event is the event of one of the rows, so it has a song name and starts in the target year; every row that passes is loaded |
| Aggregation.AddEventGet | AppleMusicAnalyzer/Music.py:81-84 | one event raises a key's count by one in its display month and in bucket 0 when its name is present, and changes nothing else |
| Aggregation.TallyCountsDisplayMonths | AppleMusicAnalyzer/Music.py:80-84 | bucket m holds, for each name, the number of events with that name whose display month is m (every event for bucket 0) |
| Aggregation.MonthSumStep | AppleMusicAnalyzer/Music.py:83 | one event adds one to the month sum from m on exactly when its name matches and its month is at least m |
| Aggregation.OverallIsSumOfMonths | AppleMusicAnalyzer/Music.py:80-84 | for every name, the overall count is the sum of its twelve monthly counts |
| Aggregation.OverallTotalIsPresentEvents | AppleMusicAnalyzer/Music.py:80-84 | the counts of bucket 0 add up to the number of events whose name for the dimension is not null |
| Aggregation.TallyWellFormed | AppleMusicAnalyzer/Music.py:80-84 | every bucket stores each name once, with a positive count |
| Aggregation.MonthSumPositive | AppleMusicAnalyzer/Music.py:83 | a month sum is positive exactly when some month in its range counts the name |
| Aggregation.OverallKeysAreMonthKeys | AppleMusicAnalyzer/Music.py:83-84 | a name is in the overall bucket exactly when it is in some month bucket |
| Aggregation.LateDecemberCountsInJanuary | AppleMusicAnalyzer/Music.py:64-65 | a target-year row played from 16:00 UTC on 31 December is loaded and counted in January, not December |
| Aggregation.TopLists | AppleMusicAnalyzer/Music.py:85-86 | one call appends exactly thirteen rankings |
| Aggregation.TopListsCountEvents | AppleMusicAnalyzer/Music.py:85-86 | each appended ranking has min(n, distinct names) entries, is ordered by count, and each count is the number of matching events in that bucket |
| Aggregation.CountBuckets | AppleMusicAnalyzer/Music.py:76-84 | the counting loop builds exactly the thirteen counters `Tally` specifies |
| Aggregation.DayCountsCountEvents | AppleMusicAnalyzer/Music.py:119-122 | each day's count is the number of events on that display-time date; the day counts sum to the number of events; each day is stored once |
| Report.JoinAppend | AppleMusicAnalyzer/Music.py:139-168 | the text of consecutive line blocks is the concatenation of their texts |
| Report.TableHasNoHeadings | AppleMusicAnalyzer/Music.py:149-165 | a ranked table holds no section heading and no "No data" line |
| Report.SectionHeadings | AppleMusicAnalyzer/Music.py:142-165 | a bucket's section has exactly one section heading, its own |
| Report.ReportSections | AppleMusicAnalyzer/Music.py:140-168 | the report's section headings are exactly "Overall", then "year.1" .. "year.12", then "HeatMap" |
| Report.NoDataIffNoSongs | AppleMusicAnalyzer/Music.py:146-148 | "No data" appears in a section exactly when its song ranking is empty, and then the section holds no table |
| Report.SectionRows | AppleMusicAnalyzer/Music.py:149-165 | a non-empty section has one `| name | count |` row per ranked song, artist and album, at fixed positions, in rank order |
| Report.SectionText | AppleMusicAnalyzer/Music.py:142-165 | the text of one section: the heading, then "No data" or the three tables |
| Report.ReportGrows | AppleMusicAnalyzer/Music.py:141-165 | each pass of the month loop appends exactly one section's text |
| Report.ReportEnding | AppleMusicAnalyzer/Music.py:167-168 | the two heat-map lines complete the report |
| Report.ReportFraming | AppleMusicAnalyzer/Music.py:140-168 | the report starts with the title line and ends with the heat-map image reference |
| MusicAnalyzer.AppendTable | AppleMusicAnalyzer/Music.py:149-153 | appending a table header and one row per entry extends the text by exactly that table's lines |
| MusicAnalyzer.AppendSection | AppleMusicAnalyzer/Music.py:142-165 | one month iteration appends exactly that bucket's section, short-circuiting on an empty song ranking |
| MusicAnalyzer.ReadRow | AppleMusicAnalyzer/Music.py:55-72 | one pass of the `read` loop yields exactly the event the row normalisation and the year filter allow |
| MusicAnalyzer.WriteReport | AppleMusicAnalyzer/Music.py:139-168 | the text-building part of `generate_markdown` produces exactly the report lines: the title, thirteen sections, then the heat-map lines |
| MusicAnalyzer.Music.constructor | AppleMusicAnalyzer/Music.py:33-44 | a fresh analyser: empty year, events and rankings, zero counts |
| MusicAnalyzer.Music.Read | AppleMusicAnalyzer/Music.py:46-73 | `read` sets the year string and appends exactly the loaded events, in row order, after the existing ones. It returns their number and changes no other field |
| MusicAnalyzer.Music.GetTopSongs | AppleMusicAnalyzer/Music.py:75-87 | appends the thirteen song rankings and sets `song_number` to the number of distinct songs; nothing else changes |
| MusicAnalyzer.Music.GetTopArtists | AppleMusicAnalyzer/Music.py:89-101 | appends the thirteen artist rankings and sets `song_number` (as written) to the number of distinct artists; `artists_number` is unchanged |
| MusicAnalyzer.Music.GetTopAlbums | AppleMusicAnalyzer/Music.py:103-115 | appends the thirteen album rankings and sets `song_number` (as written) to the number of distinct albums; `albums_number` is unchanged |
| MusicAnalyzer.Music.GetHeatMap | AppleMusicAnalyzer/Music.py:117-122 | the day counter it builds is the per-display-date count of events |
| MusicAnalyzer.Music.GetTop | AppleMusicAnalyzer/Music.py:127-133 | songs, then albums, then artists: all three fields grow by their thirteen rankings, and `song_number` ends as the number of distinct artists |
| MusicAnalyzer.Music.GenerateMarkdown | AppleMusicAnalyzer/Music.py:135-168 | runs `getTop` and the day count, then returns exactly the report text built from the first thirteen rankings of each field |

## Left out

- CSV loading (`pd.read_csv`) and NaN detection (`pd.isnull`) are library calls. A row is a record with optional fields, and a non-string `Build Version` is its own case.
- Timestamp parsing (`pd.to_datetime`) and its errors are library calls. Timestamps arrive parsed, as valid UTC date-times. Sub-second precision is dropped.
- The time-zone database: `tz_localize('UTC').tz_convert('Asia/Shanghai')` becomes a fixed +8 h shift. The zone differs from +8 h in some periods the model does not capture: daylight saving in 1940–1949 and 1986–1991, and local mean time before 1901.
- Progress output (`tqdm`, `print`) only reports progress.
- Plotting in `getHeatMap` is external image rendering. That covers `pd.Series`, `calmap.yearplot`, `plt.savefig` and the `int(self.year)` conversion.
- Writing the report file at the end of `generate_markdown` is file I/O. The model returns the text.
- `songs` and the `top_*` lists are class-level lists, shared by every instance. The model gives them to one object as fields. It keeps the append-not-replace behaviour, but not sharing across instances.
- `Song.__str__` is debug formatting only.
- The `year` argument of `read` is taken to be an integer. A value of another type that compares equal, such as `2020.0`, would still match rows in the source. It would also make the report year `"2020.0"`, on which the `int(self.year)` call in `getHeatMap` raises. The model does not capture this.
- The default `topK=10` of `generate_markdown` is not modelled: `GenerateMarkdown` always takes `topK` as an argument.
- Names are assumed to contain no line break. The report lemmas (`ReportSections`, `NoDataIffNoSongs`, `SectionRows`, the heading and "No data" checks) are stated on the report's list of lines. A name containing a newline, which a quoted CSV cell allows, would split one row of the text into several lines. The text itself is still exactly the joined lines.
- Two quirks are kept as the code has them, not corrected.
  - In `generate_markdown`, rankings are read from positions 0..12 of each field. After a second run in the same object, the report repeats the first run's rankings.
  - `getTopArtists` and `getTopAlbums` overwrite `song_number`, and `artists_number` and `albums_number` stay 0.
  - The contracts state both behaviours as the code has them.
- The device string is left at `''` when a build version names neither application. The code does this, and the model follows it.

/** The counting behind `getTopSongs`, `getTopArtists`, `getTopAlbums` and
    `getHeatMap`: thirteen counters per dimension (index 0 overall, 1..12 the
    months of display time) and one counter of plays per display-time day. */
module Aggregation {
  import opened Optional
  import opened Calendar
  import opened Counters
  import opened Ranking
  import opened Songs

  /** Which name of an event a pass counts. */
  datatype Dimension = SongDim | ArtistDim | AlbumDim

  function Field(s: Song, d: Dimension): Option<string> {
    match d
    case SongDim => s.songName
    case ArtistDim => s.artistName
    case AlbumDim => s.containerName
  }

  /** Index 0 is the overall bucket, 1..12 the months. */
  const BucketCount: int := 13

  type Buckets = b: seq<Counter<string>> | |b| == BucketCount witness seq(BucketCount, _ => [])

  function NoCounts(): Buckets {
    seq(BucketCount, _ => [])
  }

  /** One iteration of the counting loop: an event whose name for this
      dimension is null is skipped; otherwise its name is counted in the
      bucket of its display-time month and in the overall bucket. */
  function AddEvent(b: Buckets, s: Song, d: Dimension): Buckets {
    match Field(s, d)
    case None => b
    case Some(k) =>
      var m := DisplayMonth(s.startTime);
      var b1 := b[m := Increment(b[m], k)];
      b1[0 := Increment(b1[0], k)]
  }

  /** The thirteen counters after the loop has seen `songs`. */
  function Tally(songs: seq<Song>, d: Dimension): Buckets {
    if songs == [] then NoCounts()
    else AddEvent(Tally(songs[..|songs| - 1], d), songs[|songs| - 1], d)
  }

  /** An event counts in bucket m for key k: its name is k and, unless m is
      the overall bucket, its display-time month is m. */
  predicate Hits(s: Song, d: Dimension, k: string, m: int) {
    Field(s, d) == Some(k) && (m == 0 || DisplayMonth(s.startTime) == m)
  }

  function Occurrences(songs: seq<Song>, d: Dimension, k: string, m: int): nat {
    if songs == [] then 0
    else Occurrences(songs[..|songs| - 1], d, k, m) + (if Hits(songs[|songs| - 1], d, k, m) then 1 else 0)
  }

  /** The number of events whose name for this dimension is not null. */
  function Present(songs: seq<Song>, d: Dimension): nat {
    if songs == [] then 0
    else Present(songs[..|songs| - 1], d) + (if Field(songs[|songs| - 1], d).Some? then 1 else 0)
  }

  /** The counts of key k in the month buckets m..12. */
  function MonthSum(b: Buckets, k: string, m: int): nat
    requires 1 <= m <= BucketCount
    decreases BucketCount - m
  {
    if m == BucketCount then 0 else Get(b[m], k) + MonthSum(b, k, m + 1)
  }

  lemma AddEventGet(b: Buckets, s: Song, d: Dimension, j: int, k: string)
    requires 0 <= j < BucketCount
    ensures Get(AddEvent(b, s, d)[j], k) == Get(b[j], k) + (if Hits(s, d, k, j) then 1 else 0)
  {
  }

  /** Bucket m holds, for each key, exactly the number of events that hit it:
      the month index is read after the shift to display time. */
  lemma {:induction false} TallyCountsDisplayMonths(songs: seq<Song>, d: Dimension, k: string, m: int)
    requires 0 <= m < BucketCount
    ensures Get(Tally(songs, d)[m], k) == Occurrences(songs, d, k, m)
  {
    if songs != [] {
      TallyCountsDisplayMonths(songs[..|songs| - 1], d, k, m);
      AddEventGet(Tally(songs[..|songs| - 1], d), songs[|songs| - 1], d, m, k);
    }
  }

  lemma {:induction false} MonthSumStep(b: Buckets, s: Song, d: Dimension, k: string, m: int)
    requires 1 <= m <= BucketCount
    ensures MonthSum(AddEvent(b, s, d), k, m)
         == MonthSum(b, k, m) + (if Field(s, d) == Some(k) && m <= DisplayMonth(s.startTime) then 1 else 0)
    decreases BucketCount - m
  {
    if m < BucketCount {
      MonthSumStep(b, s, d, k, m + 1);
      AddEventGet(b, s, d, m, k);
    }
  }

  /** Overall equals the sum of the months, key by key. */
  lemma {:induction false} OverallIsSumOfMonths(songs: seq<Song>, d: Dimension, k: string)
    ensures Get(Tally(songs, d)[0], k) == MonthSum(Tally(songs, d), k, 1)
  {
    if songs != [] {
      var b := Tally(songs[..|songs| - 1], d);
      OverallIsSumOfMonths(songs[..|songs| - 1], d, k);
      MonthSumStep(b, songs[|songs| - 1], d, k, 1);
      AddEventGet(b, songs[|songs| - 1], d, 0, k);
    }
  }

  /** The overall bucket counts every event whose name is present, once. */
  lemma {:induction false} OverallTotalIsPresentEvents(songs: seq<Song>, d: Dimension)
    ensures Total(Tally(songs, d)[0]) == Present(songs, d)
  {
    if songs != [] {
      var b := Tally(songs[..|songs| - 1], d);
      OverallTotalIsPresentEvents(songs[..|songs| - 1], d);
      match Field(songs[|songs| - 1], d)
      case None =>
      case Some(k) =>
        var m := DisplayMonth(songs[|songs| - 1].startTime);
        IncrementTotal(b[m := Increment(b[m], k)][0], k);
    }
  }

  lemma {:induction false} TallyWellFormed(songs: seq<Song>, d: Dimension)
    ensures forall m :: 0 <= m < BucketCount ==> WellFormed(Tally(songs, d)[m])
  {
    if songs != [] {
      var b := Tally(songs[..|songs| - 1], d);
      TallyWellFormed(songs[..|songs| - 1], d);
      match Field(songs[|songs| - 1], d)
      case None =>
      case Some(k) =>
        var mm := DisplayMonth(songs[|songs| - 1].startTime);
        IncrementWellFormed(b[mm], k);
        IncrementWellFormed(b[0], k);
    }
  }

  lemma {:induction false} MonthSumPositive(b: Buckets, k: string, m: int)
    requires 1 <= m <= BucketCount
    ensures MonthSum(b, k, m) > 0 <==> exists j :: m <= j < BucketCount && Get(b[j], k) > 0
    decreases BucketCount - m
  {
    if m < BucketCount {
      MonthSumPositive(b, k, m + 1);
    }
  }

  /** A key is in the overall bucket exactly when it is in some month bucket. */
  lemma OverallKeysAreMonthKeys(songs: seq<Song>, d: Dimension, k: string)
    ensures k in Keys(Tally(songs, d)[0]) <==>
            exists m :: 1 <= m < BucketCount && k in Keys(Tally(songs, d)[m])
  {
    var b := Tally(songs, d);
    TallyWellFormed(songs, d);
    OverallIsSumOfMonths(songs, d, k);
    MonthSumPositive(b, k, 1);
    PositiveIffStored(b[0], k);
    forall m | 1 <= m < BucketCount
      ensures Get(b[m], k) > 0 <==> k in Keys(b[m])
    {
      PositiveIffStored(b[m], k);
    }
  }

  /** A row of the target year played from 16:00 UTC on 31 December on is
      loaded (the year filter reads source time) and counted in the January
      bucket (the month is read in display time). */
  lemma LateDecemberCountsInJanuary(r: Row, year: int)
    requires r.start.Some? && r.songName.Some?
    requires r.start.value.date == CivilDate(year, 12, 31) && r.start.value.hour >= 24 - DisplayOffsetHours
    ensures LoadRow(r, year).Some?
    ensures Hits(LoadRow(r, year).value, SongDim, r.songName.value, 1)
    ensures !Hits(LoadRow(r, year).value, SongDim, r.songName.value, 12)
  {
    NewYearInDisplayTime(r.start.value);
  }

  /** The thirteen `most_common(n)` lists one `getTop*` call appends. */
  function TopLists(songs: seq<Song>, d: Dimension, n: int): (tops: seq<seq<(string, nat)>>)
    ensures |tops| == BucketCount
  {
    var b := Tally(songs, d);
    seq(BucketCount, m requires 0 <= m < BucketCount => MostCommon(b[m], n))
  }

  /** Every ranked entry carries the number of events with that name in that
      bucket; each list is min(n, distinct names) long and ordered by count. */
  lemma TopListsCountEvents(songs: seq<Song>, d: Dimension, n: int, m: int)
    requires 0 <= m < BucketCount
    ensures |TopLists(songs, d, n)[m]| == if n <= 0 then 0 else Min(n, |Tally(songs, d)[m]|)
    ensures NonIncreasing(TopLists(songs, d, n)[m])
    ensures forall i :: 0 <= i < |TopLists(songs, d, n)[m]| ==>
              TopLists(songs, d, n)[m][i].1 == Occurrences(songs, d, TopLists(songs, d, n)[m][i].0, m)
  {
    var c := Tally(songs, d)[m];
    TallyWellFormed(songs, d);
    MostCommonIsTopN(c, n);
    forall i | 0 <= i < |TopLists(songs, d, n)[m]|
      ensures TopLists(songs, d, n)[m][i].1 == Occurrences(songs, d, TopLists(songs, d, n)[m][i].0, m)
    {
      TallyCountsDisplayMonths(songs, d, TopLists(songs, d, n)[m][i].0, m);
    }
  }

  /** The counting loop shared by the three `getTop*` methods: thirteen empty
      counters, then one pass over the events. */
  method CountBuckets(songs: seq<Song>, d: Dimension) returns (counters: seq<Counter<string>>)
    ensures counters == Tally(songs, d)
  {
    counters := [];
    for i := 0 to BucketCount
      invariant counters == seq(i, _ => [])
    {
      counters := counters + [[]];
    }
    for i := 0 to |songs|
      invariant |counters| == BucketCount
      invariant counters == Tally(songs[..i], d)
    {
      var song := songs[i];
      assert songs[..i + 1][..i] == songs[..i];
      match Field(song, d)
      case None =>
      case Some(k) =>
        var m := DisplayMonth(song.startTime);
        counters := counters[m := Increment(counters[m], k)];
        counters := counters[0 := Increment(counters[0], k)];
    }
    assert songs[..|songs|] == songs;
  }

  /** The per-day counter of `getHeatMap`: plays per display-time date. */
  function DayCounts(songs: seq<Song>): Counter<Date> {
    if songs == [] then []
    else Increment(DayCounts(songs[..|songs| - 1]), DisplayDate(songs[|songs| - 1].startTime))
  }

  function PlaysOn(songs: seq<Song>, day: Date): nat {
    if songs == [] then 0
    else PlaysOn(songs[..|songs| - 1], day) + (if DisplayDate(songs[|songs| - 1].startTime) == day then 1 else 0)
  }

  /** Each day's count is the number of events on that display-time date, and
      the day counts add up to the number of events. */
  lemma {:induction false} DayCountsCountEvents(songs: seq<Song>, day: Date)
    ensures Get(DayCounts(songs), day) == PlaysOn(songs, day)
    ensures Total(DayCounts(songs)) == |songs|
    ensures WellFormed(DayCounts(songs))
  {
    if songs != [] {
      var init := songs[..|songs| - 1];
      DayCountsCountEvents(init, day);
      IncrementTotal(DayCounts(init), DisplayDate(songs[|songs| - 1].startTime));
      IncrementWellFormed(DayCounts(init), DisplayDate(songs[|songs| - 1].startTime));
    }
  }
}

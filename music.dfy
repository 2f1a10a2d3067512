/** The analyser object (`Music`): it accumulates events with `read`, appends
    thirteen ranked lists per dimension with `getTopSongs`, `getTopArtists`
    and `getTopAlbums`, counts plays per day for the heat map and assembles
    the markdown report. */
module MusicAnalyzer {
  import opened Optional
  import opened Calendar
  import opened Text
  import opened Counters
  import opened Ranking
  import opened Songs
  import opened Aggregation
  import opened Report

  /** `md += '### <title>\n| <column> | Play Times |\n| --- | --- |\n'`
      followed by one `| name | count |` row per ranked entry. */
  method AppendTable(md: string, title: string, column: string, entries: Ranked) returns (r: string)
    ensures r == md + Join(Table(title, column, entries))
  {
    r := md + ("### " + title + "\n");
    r := r + ("| " + column + " | Play Times |\n");
    r := r + (TableRule + "\n");
    TableHeaderText(title, column);
    ConcatAssoc(md, "### " + title + "\n", "| " + column + " | Play Times |\n", TableRule + "\n");
    assert entries[..0] == [];
    for i := 0 to |entries|
      invariant r == md + Join(Table(title, column, entries[..i]))
    {
      TableGrows(title, column, entries, i);
      ConcatAssoc3(md, Join(Table(title, column, entries[..i])), EntryRow(entries[i]) + "\n");
      r := r + (EntryRow(entries[i]) + "\n");
    }
    assert entries[..|entries|] == entries;
  }

  /** One pass of the month loop of `generate_markdown`: the bucket's
      heading, then "No data" when its song list is empty (skipping the
      other two tables), else the three tables. */
  method AppendSection(md: string, year: string, songs: Ranked, artists: Ranked, albums: Ranked, month: nat)
    returns (r: string)
    ensures r == md + Join(SectionLines(year, songs, artists, albums, month))
  {
    SectionText(year, songs, artists, albums, month);
    if month == 0 {
      r := md + "## Overall\n";
    } else {
      r := md + ("## " + year + "." + NatToString(month) + "\n");
    }
    ghost var heading := SectionTitle(year, month) + "\n";
    assert r == md + heading;
    if songs == [] {
      r := r + (NoData + "\n");
      ConcatAssoc3(md, heading, NoData + "\n");
      return;
    }
    r := AppendTable(r, "Top Songs", "Song Name", songs);
    r := AppendTable(r, "Top Artists", "Artist Name", artists);
    r := AppendTable(r, "Top Albums", "Album Name", albums);
    ConcatAssoc5(md, heading, Join(Table("Top Songs", "Song Name", songs)),
                 Join(Table("Top Artists", "Artist Name", artists)),
                 Join(Table("Top Albums", "Album Name", albums)));
  }

  /** The body of the loop in `read` for one row: skip a row with no
      timestamp at all, fill a missing timestamp from the other one, skip a
      row with no song name, and keep the event when its start year is the
      target year. `Songs.LoadRow` is its specification. */
  method ReadRow(row: Row, target: int) returns (event: Option<Song>)
    ensures event == LoadRow(row, target)
  {
    var r := row;
    // missing data
    if r.start.None? && r.end.None? {
      return None;
    } else if r.start.None? {
      r := r.(start := r.end);
    } else if r.end.None? {
      r := r.(end := r.start);
    }
    if r.songName.None? {
      return None;
    }
    // the year filter, in source time
    var t := r.start.value;
    if t.date.year == target {
      return Some(MakeSong(t, r.songName, r.artistName, r.containerName, r.buildVersion));
    }
    return None;
  }

  class Music {
    var year: string
    var songs: seq<Song>

    var topSongs: seq<Ranked>
    var songNumber: nat

    var topArtists: seq<Ranked>
    var artistsNumber: nat

    var topAlbums: seq<Ranked>
    var albumsNumber: nat

    constructor ()
      ensures year == "" && songs == []
      ensures topSongs == [] && topArtists == [] && topAlbums == []
      ensures songNumber == 0 && artistsNumber == 0 && albumsNumber == 0
    {
      year := "";
      songs := [];
      topSongs, songNumber := [], 0;
      topArtists, artistsNumber := [], 0;
      topAlbums, albumsNumber := [], 0;
    }

    /** `read(filename, year)` on rows already loaded and parsed: appends the
        usable rows of the target year, in row order, and returns how many. */
    method Read(rows: seq<Row>, target: int) returns (cnt: nat)
      modifies this
      ensures year == IntToString(target)
      ensures songs == old(songs) + Loaded(rows, target)
      ensures cnt == |Loaded(rows, target)|
      ensures topSongs == old(topSongs) && songNumber == old(songNumber)
      ensures topArtists == old(topArtists) && artistsNumber == old(artistsNumber)
      ensures topAlbums == old(topAlbums) && albumsNumber == old(albumsNumber)
    {
      year := IntToString(target);
      cnt := 0;
      for idx := 0 to |rows|
        modifies this`songs
        invariant songs == old(songs) + Loaded(rows[..idx], target)
        invariant cnt == |Loaded(rows[..idx], target)|
      {
        LoadedStep(rows, idx, target);
        ghost var before := songs;
        var event := ReadRow(rows[idx], target);
        if event.Some? {
          songs := songs + [event.value];
          cnt := cnt + 1;
        }
        assert songs == before + RowEvents(rows[idx], target);
      }
      assert rows[..|rows|] == rows;
    }

    method GetTopSongs(number: int)
      modifies this
      ensures topSongs == old(topSongs) + TopLists(songs, SongDim, number)
      ensures songNumber == |Tally(songs, SongDim)[0]|
      ensures year == old(year) && songs == old(songs)
      ensures topArtists == old(topArtists) && artistsNumber == old(artistsNumber)
      ensures topAlbums == old(topAlbums) && albumsNumber == old(albumsNumber)
    {
      var counters := CountBuckets(songs, SongDim);
      for idx := 0 to BucketCount
        invariant topSongs == old(topSongs) + TopLists(songs, SongDim, number)[..idx]
        invariant year == old(year) && songs == old(songs) && songNumber == old(songNumber)
        invariant topArtists == old(topArtists) && artistsNumber == old(artistsNumber)
        invariant topAlbums == old(topAlbums) && albumsNumber == old(albumsNumber)
      {
        assert TopLists(songs, SongDim, number)[..idx + 1]
            == TopLists(songs, SongDim, number)[..idx] + [MostCommon(counters[idx], number)];
        topSongs := topSongs + [MostCommon(counters[idx], number)];
      }
      assert TopLists(songs, SongDim, number)[..BucketCount] == TopLists(songs, SongDim, number);
      songNumber := |counters[0]|;
    }

    /** As written, this overwrites `songNumber` (not `artistsNumber`). */
    method GetTopArtists(number: int)
      modifies this
      ensures topArtists == old(topArtists) + TopLists(songs, ArtistDim, number)
      ensures songNumber == |Tally(songs, ArtistDim)[0]|
      ensures year == old(year) && songs == old(songs)
      ensures topSongs == old(topSongs) && artistsNumber == old(artistsNumber)
      ensures topAlbums == old(topAlbums) && albumsNumber == old(albumsNumber)
    {
      var counters := CountBuckets(songs, ArtistDim);
      for idx := 0 to BucketCount
        invariant topArtists == old(topArtists) + TopLists(songs, ArtistDim, number)[..idx]
        invariant year == old(year) && songs == old(songs) && songNumber == old(songNumber)
        invariant topSongs == old(topSongs) && artistsNumber == old(artistsNumber)
        invariant topAlbums == old(topAlbums) && albumsNumber == old(albumsNumber)
      {
        assert TopLists(songs, ArtistDim, number)[..idx + 1]
            == TopLists(songs, ArtistDim, number)[..idx] + [MostCommon(counters[idx], number)];
        topArtists := topArtists + [MostCommon(counters[idx], number)];
      }
      assert TopLists(songs, ArtistDim, number)[..BucketCount] == TopLists(songs, ArtistDim, number);
      songNumber := |counters[0]|;
    }

    /** As written, this overwrites `songNumber` (not `albumsNumber`). */
    method GetTopAlbums(number: int)
      modifies this
      ensures topAlbums == old(topAlbums) + TopLists(songs, AlbumDim, number)
      ensures songNumber == |Tally(songs, AlbumDim)[0]|
      ensures year == old(year) && songs == old(songs)
      ensures topSongs == old(topSongs) && artistsNumber == old(artistsNumber)
      ensures topArtists == old(topArtists) && albumsNumber == old(albumsNumber)
    {
      var counters := CountBuckets(songs, AlbumDim);
      for idx := 0 to BucketCount
        invariant topAlbums == old(topAlbums) + TopLists(songs, AlbumDim, number)[..idx]
        invariant year == old(year) && songs == old(songs) && songNumber == old(songNumber)
        invariant topSongs == old(topSongs) && artistsNumber == old(artistsNumber)
        invariant topArtists == old(topArtists) && albumsNumber == old(albumsNumber)
      {
        assert TopLists(songs, AlbumDim, number)[..idx + 1]
            == TopLists(songs, AlbumDim, number)[..idx] + [MostCommon(counters[idx], number)];
        topAlbums := topAlbums + [MostCommon(counters[idx], number)];
      }
      assert TopLists(songs, AlbumDim, number)[..BucketCount] == TopLists(songs, AlbumDim, number);
      songNumber := |counters[0]|;
    }

    /** The per-day counting of `getHeatMap`; the calendar plot it feeds is
        not modelled. */
    method GetHeatMap() returns (days: Counter<Date>)
      ensures days == DayCounts(songs)
    {
      days := [];
      for i := 0 to |songs|
        invariant days == DayCounts(songs[..i])
      {
        assert songs[..i + 1][..i] == songs[..i];
        var t := ToDisplay(songs[i].startTime);
        days := Increment(days, DateOf(t));
      }
      assert songs[..|songs|] == songs;
    }

    /** Songs, then albums, then artists: `songNumber` ends up holding the
        number of distinct artists. */
    method GetTop(number: int)
      modifies this
      ensures topSongs == old(topSongs) + TopLists(songs, SongDim, number)
      ensures topArtists == old(topArtists) + TopLists(songs, ArtistDim, number)
      ensures topAlbums == old(topAlbums) + TopLists(songs, AlbumDim, number)
      ensures songNumber == |Tally(songs, ArtistDim)[0]|
      ensures year == old(year) && songs == old(songs)
      ensures artistsNumber == old(artistsNumber) && albumsNumber == old(albumsNumber)
    {
      GetTopSongs(number);
      GetTopAlbums(number);
      GetTopArtists(number);
    }

    /** `generate_markdown(topK)` without writing the file: the report text.
        Buckets are read from the first thirteen lists of each field, so
        after repeated runs the report shows the first run's rankings. */
    method GenerateMarkdown(topK: int) returns (md: string)
      modifies this
      ensures topSongs == old(topSongs) + TopLists(songs, SongDim, topK)
      ensures topArtists == old(topArtists) + TopLists(songs, ArtistDim, topK)
      ensures topAlbums == old(topAlbums) + TopLists(songs, AlbumDim, topK)
      ensures songNumber == |Tally(songs, ArtistDim)[0]|
      ensures year == old(year) && songs == old(songs)
      ensures artistsNumber == old(artistsNumber) && albumsNumber == old(albumsNumber)
      ensures md == Join(ReportLines(year, topSongs, topArtists, topAlbums))
    {
      GetTop(topK);
      var days := GetHeatMap();
      md := WriteReport(year, topSongs, topArtists, topAlbums);
    }
  }

  /** The text-building part of `generate_markdown`: the title, one section
      per bucket 0..12, then the heat-map heading and image. */
  method WriteReport(year: string, ts: seq<Ranked>, ta: seq<Ranked>, tb: seq<Ranked>) returns (md: string)
    requires |ts| >= 13 && |ta| >= 13 && |tb| >= 13
    ensures md == Join(ReportLines(year, ts, ta, tb))
  {
    md := "";
    md := md + (TitleLine(year) + "\n");
    JoinOne(TitleLine(year));
    assert [TitleLine(year)] + Sections(year, ts, ta, tb, 0) == [TitleLine(year)];
    for month := 0 to BucketCount
      invariant md == Join([TitleLine(year)] + Sections(year, ts, ta, tb, month))
    {
      md := AppendSection(md, year, ts[month], ta[month], tb[month], month);
      ReportGrows(year, ts, ta, tb, month);
    }
    ReportEnding(year, ts, ta, tb, md);
    md := md + (HeatMapHeading + "\n");
    md := md + (HeatMapImage(year) + "\n");
  }
}

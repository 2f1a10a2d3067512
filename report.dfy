/** The markdown report of `generate_markdown`, as the sequence of its lines
    (each written followed by a newline): a title, one section per bucket
    (three ranked tables, or "No data" when the bucket's song list is empty),
    and the heat-map image reference. */
module Report {
  import opened Text

  type Ranked = seq<(string, nat)>

  /** The text of a sequence of lines, each ended by a newline. */
  function Join(lines: seq<string>): string {
    if lines == [] then ""
    else Join(lines[..|lines| - 1]) + lines[|lines| - 1] + "\n"
  }

  lemma {:induction false} JoinAppend(a: seq<string>, b: seq<string>)
    ensures Join(a + b) == Join(a) + Join(b)
    decreases |b|
  {
    if b == [] {
      assert a + b == a;
    } else {
      var ab := a + b;
      assert ab[..|ab| - 1] == a + b[..|b| - 1];
      assert ab[|ab| - 1] == b[|b| - 1];
      JoinAppend(a, b[..|b| - 1]);
    }
  }

  function TitleLine(year: string): string {
    "# " + year + " Year's Report"
  }

  /** "Overall" for bucket 0, "<year>.<month>" for buckets 1..12. */
  function SectionTitle(year: string, m: nat): string {
    if m == 0 then "## Overall" else "## " + (year + "." + NatToString(m))
  }

  /** One `| name | count |` row. */
  function EntryRow(e: (string, nat)): string {
    "| " + e.0 + " | " + NatToString(e.1) + " |"
  }

  function Rows(entries: Ranked): (rows: seq<string>)
    ensures |rows| == |entries|
  {
    seq(|entries|, i requires 0 <= i < |entries| => EntryRow(entries[i]))
  }

  const TableRule: string := "| --------- | ---------- |"

  function Table(title: string, column: string, entries: Ranked): seq<string> {
    ["### " + title, "| " + column + " | Play Times |", TableRule] + Rows(entries)
  }

  const NoData: string := "No data"

  /** The section of one bucket. An empty song list short-circuits: the
      artist and album tables are skipped whatever they hold. */
  function SectionLines(year: string, songs: Ranked, artists: Ranked, albums: Ranked, m: nat): seq<string> {
    [SectionTitle(year, m)] +
    if songs == [] then [NoData]
    else Table("Top Songs", "Song Name", songs)
         + Table("Top Artists", "Artist Name", artists)
         + Table("Top Albums", "Album Name", albums)
  }

  /** The sections of buckets 0 .. count-1, read from the first thirteen
      lists of each field. */
  function Sections(year: string, ts: seq<Ranked>, ta: seq<Ranked>, tb: seq<Ranked>, count: nat): seq<string>
    requires count <= 13 && |ts| >= 13 && |ta| >= 13 && |tb| >= 13
  {
    if count == 0 then []
    else Sections(year, ts, ta, tb, count - 1) + SectionLines(year, ts[count - 1], ta[count - 1], tb[count - 1], count - 1)
  }

  const HeatMapHeading: string := "## HeatMap"

  /** The image reference of the heat map saved for `year`. */
  function HeatMapImage(year: string): string {
    "![HeatMap](HeatMap" + year + ".png)"
  }

  function HeatMapLines(year: string): seq<string> {
    [HeatMapHeading, HeatMapImage(year)]
  }

  function ReportLines(year: string, ts: seq<Ranked>, ta: seq<Ranked>, tb: seq<Ranked>): seq<string>
    requires |ts| >= 13 && |ta| >= 13 && |tb| >= 13
  {
    [TitleLine(year)] + Sections(year, ts, ta, tb, 13) + HeatMapLines(year)
  }

  /** A level-two heading: a section of the report. */
  predicate IsHeading(l: string) {
    StartsWith(l, "## ")
  }

  function Headings(lines: seq<string>): seq<string> {
    if lines == [] then []
    else (if IsHeading(lines[0]) then [lines[0]] else []) + Headings(lines[1..])
  }

  lemma {:induction false} HeadingsAppend(a: seq<string>, b: seq<string>)
    ensures Headings(a + b) == Headings(a) + Headings(b)
  {
    if a == [] {
      assert a + b == b;
    } else {
      assert (a + b)[1..] == a[1..] + b;
      HeadingsAppend(a[1..], b);
    }
  }

  lemma {:induction false} NoHeadings(lines: seq<string>)
    requires forall i :: 0 <= i < |lines| ==> !IsHeading(lines[i])
    ensures Headings(lines) == []
  {
    if lines != [] {
      assert !IsHeading(lines[0]);
      NoHeadings(lines[1..]);
    }
  }

  lemma TableHasNoHeadings(title: string, column: string, entries: Ranked)
    ensures Headings(Table(title, column, entries)) == []
    ensures NoData !in Table(title, column, entries)
  {
    var t := Table(title, column, entries);
    forall i | 0 <= i < |t|
      ensures !IsHeading(t[i]) && t[i] != NoData
    {
      if i == 0 {
        assert t[i][2] == '#';
      } else {
        assert t[i][0] == '|';
      }
      assert NoData[0] == 'N';
    }
    NoHeadings(t);
  }

  lemma SectionHeadings(year: string, songs: Ranked, artists: Ranked, albums: Ranked, m: nat)
    ensures Headings(SectionLines(year, songs, artists, albums, m)) == [SectionTitle(year, m)]
  {
    var title := SectionTitle(year, m);
    assert IsHeading(title);
    var tables := Table("Top Songs", "Song Name", songs)
                  + Table("Top Artists", "Artist Name", artists)
                  + Table("Top Albums", "Album Name", albums);
    TableHasNoHeadings("Top Songs", "Song Name", songs);
    TableHasNoHeadings("Top Artists", "Artist Name", artists);
    TableHasNoHeadings("Top Albums", "Album Name", albums);
    HeadingsAppend(Table("Top Songs", "Song Name", songs), Table("Top Artists", "Artist Name", artists));
    HeadingsAppend(Table("Top Songs", "Song Name", songs) + Table("Top Artists", "Artist Name", artists),
                   Table("Top Albums", "Album Name", albums));
    var rest := if songs == [] then [NoData] else tables;
    assert Headings(rest) == [] by {
      if songs == [] {
        assert NoData[0] == 'N';
        assert !IsHeading(NoData);
      }
    }
    HeadingsAppend([title], rest);
  }

  lemma {:induction false} SectionsHeadings(year: string, ts: seq<Ranked>, ta: seq<Ranked>, tb: seq<Ranked>, count: nat)
    requires count <= 13 && |ts| >= 13 && |ta| >= 13 && |tb| >= 13
    ensures Headings(Sections(year, ts, ta, tb, count)) == seq(count, m requires 0 <= m => SectionTitle(year, m))
  {
    if count > 0 {
      SectionsHeadings(year, ts, ta, tb, count - 1);
      SectionHeadings(year, ts[count - 1], ta[count - 1], tb[count - 1], count - 1);
      HeadingsAppend(Sections(year, ts, ta, tb, count - 1),
                     SectionLines(year, ts[count - 1], ta[count - 1], tb[count - 1], count - 1));
    }
  }

  /** The report's sections are exactly "Overall", then "<year>.1" ..
      "<year>.12", then the heat map, whatever the tables hold. */
  lemma ReportSections(year: string, ts: seq<Ranked>, ta: seq<Ranked>, tb: seq<Ranked>)
    requires |ts| >= 13 && |ta| >= 13 && |tb| >= 13
    ensures Headings(ReportLines(year, ts, ta, tb))
            == seq(13, m requires 0 <= m => SectionTitle(year, m)) + [HeatMapHeading]
  {
    var body := Sections(year, ts, ta, tb, 13);
    SectionsHeadings(year, ts, ta, tb, 13);
    assert !IsHeading(TitleLine(year)) by {
      assert TitleLine(year)[1] == ' ';
    }
    HeadingsAppend([TitleLine(year)], body);
    HeadingsAppend([TitleLine(year)] + body, HeatMapLines(year));
    assert Headings(HeatMapLines(year)) == [HeatMapHeading] by {
      var l := HeatMapLines(year)[1];
      assert l[0] == '!';
      assert Headings(HeatMapLines(year)[1..]) == [] by {
        assert HeatMapLines(year)[1..][1..] == [];
      }
    }
  }

  /** "No data" appears in a bucket's section exactly when its song list is
      empty, and then the section has no table at all. */
  lemma NoDataIffNoSongs(year: string, songs: Ranked, artists: Ranked, albums: Ranked, m: nat)
    ensures NoData in SectionLines(year, songs, artists, albums, m) <==> songs == []
    ensures songs == [] ==> |SectionLines(year, songs, artists, albums, m)| == 2
  {
    assert SectionTitle(year, m)[0] == '#';
    TableHasNoHeadings("Top Songs", "Song Name", songs);
    TableHasNoHeadings("Top Artists", "Artist Name", artists);
    TableHasNoHeadings("Top Albums", "Album Name", albums);
  }

  /** A non-empty bucket lists every ranked entry as one row, songs then
      artists then albums, in rank order. */
  lemma SectionRows(year: string, songs: Ranked, artists: Ranked, albums: Ranked, m: nat)
    requires songs != []
    ensures |SectionLines(year, songs, artists, albums, m)| == 10 + |songs| + |artists| + |albums|
    ensures forall i :: 0 <= i < |songs| ==>
              SectionLines(year, songs, artists, albums, m)[4 + i] == EntryRow(songs[i])
    ensures forall i :: 0 <= i < |artists| ==>
              SectionLines(year, songs, artists, albums, m)[7 + |songs| + i] == EntryRow(artists[i])
    ensures forall i :: 0 <= i < |albums| ==>
              SectionLines(year, songs, artists, albums, m)[10 + |songs| + |artists| + i] == EntryRow(albums[i])
  {
  }

  /** Each pass of the month loop appends one section's text. */
  lemma ReportGrows(year: string, ts: seq<Ranked>, ta: seq<Ranked>, tb: seq<Ranked>, month: nat)
    requires month < 13 && |ts| >= 13 && |ta| >= 13 && |tb| >= 13
    ensures Join([TitleLine(year)] + Sections(year, ts, ta, tb, month + 1))
         == Join([TitleLine(year)] + Sections(year, ts, ta, tb, month))
            + Join(SectionLines(year, ts[month], ta[month], tb[month], month))
  {
    var prefix := [TitleLine(year)] + Sections(year, ts, ta, tb, month);
    assert [TitleLine(year)] + Sections(year, ts, ta, tb, month + 1)
        == prefix + SectionLines(year, ts[month], ta[month], tb[month], month);
    JoinAppend(prefix, SectionLines(year, ts[month], ta[month], tb[month], month));
  }

  /** After the thirteen sections, the two heat-map lines complete the report. */
  lemma ReportEnding(year: string, ts: seq<Ranked>, ta: seq<Ranked>, tb: seq<Ranked>, md: string)
    requires |ts| >= 13 && |ta| >= 13 && |tb| >= 13
    requires md == Join([TitleLine(year)] + Sections(year, ts, ta, tb, 13))
    ensures md + (HeatMapHeading + "\n") + (HeatMapImage(year) + "\n")
         == Join(ReportLines(year, ts, ta, tb))
  {
    var body := [TitleLine(year)] + Sections(year, ts, ta, tb, 13);
    JoinTwo(HeatMapHeading, HeatMapImage(year));
    JoinAppend(body, HeatMapLines(year));
    ConcatAssoc3(md, HeatMapHeading + "\n", HeatMapImage(year) + "\n");
  }

  lemma JoinTwo(x: string, y: string)
    ensures Join([x, y]) == x + "\n" + y + "\n"
  {
    assert [x, y][..1] == [x];
    assert [x][..0] == [];
    assert Join([x]) == x + "\n";
    assert Join([x, y]) == Join([x]) + y + "\n";
  }

  lemma JoinOne(x: string)
    ensures Join([x]) == x + "\n"
  {
    assert [x][..0] == [];
  }

  lemma TableHeaderText(title: string, column: string)
    ensures Join(Table(title, column, []))
         == ("### " + title + "\n") + ("| " + column + " | Play Times |\n") + (TableRule + "\n")
  {
    var t := Table(title, column, []);
    assert t == ["### " + title, "| " + column + " | Play Times |", TableRule];
    assert t[..2] == ["### " + title, "| " + column + " | Play Times |"];
    JoinTwo("### " + title, "| " + column + " | Play Times |");
  }

  /** One more ranked entry adds one row to the table's text. */
  lemma TableGrows(title: string, column: string, entries: Ranked, i: nat)
    requires i < |entries|
    ensures Join(Table(title, column, entries[..i + 1]))
         == Join(Table(title, column, entries[..i])) + (EntryRow(entries[i]) + "\n")
  {
    var t := Table(title, column, entries[..i + 1]);
    assert t[..|t| - 1] == Table(title, column, entries[..i]);
    assert t[|t| - 1] == EntryRow(entries[i]);
  }

  lemma ConcatAssoc3(x: string, y: string, z: string)
    ensures x + y + z == x + (y + z)
  {
  }

  lemma JoinFour(a: seq<string>, b: seq<string>, c: seq<string>, d: seq<string>)
    ensures Join(a + b + c + d) == Join(a) + (Join(b) + Join(c) + Join(d))
  {
    var ab := a + b;
    var abc := ab + c;
    JoinAppend(abc, d);
    JoinAppend(ab, c);
    JoinAppend(a, b);
    var ja, jb, jc, jd := Join(a), Join(b), Join(c), Join(d);
    assert Join(abc + d) == ja + jb + jc + jd;
    ConcatAssoc(ja, jb, jc, jd);
  }

  lemma ConcatAssoc(x: string, y: string, z: string, w: string)
    ensures x + y + z + w == x + (y + z + w)
  {
  }

  lemma ConcatAssoc5(s: string, h: string, x: string, y: string, z: string)
    ensures s + h + x + y + z == s + (h + (x + y + z))
  {
  }

  /** The text of one section, as `generate_markdown` appends it. */
  lemma SectionText(year: string, songs: Ranked, artists: Ranked, albums: Ranked, m: nat)
    ensures Join(SectionLines(year, songs, artists, albums, m))
         == SectionTitle(year, m) + "\n" +
            if songs == [] then NoData + "\n"
            else Join(Table("Top Songs", "Song Name", songs))
                 + Join(Table("Top Artists", "Artist Name", artists))
                 + Join(Table("Top Albums", "Album Name", albums))
  {
    var head := [SectionTitle(year, m)];
    if songs == [] {
      JoinTwo(SectionTitle(year, m), NoData);
    } else {
      var t1 := Table("Top Songs", "Song Name", songs);
      var t2 := Table("Top Artists", "Artist Name", artists);
      var t3 := Table("Top Albums", "Album Name", albums);
      assert SectionLines(year, songs, artists, albums, m) == head + t1 + t2 + t3;
      JoinOne(SectionTitle(year, m));
      JoinFour(head, t1, t2, t3);
    }
  }

  lemma PrefixOfConcat(x: string, y: string)
    ensures StartsWith(x + y, x)
  {
    assert (x + y)[..|x|] == x;
  }

  lemma SuffixOfConcat(x: string, y: string)
    ensures |y| <= |x + y| && (x + y)[|x + y| - |y|..] == y
  {
    assert (x + y)[|x|..] == y;
  }

  lemma TextStartsWithFirstLine(first: string, rest: seq<string>)
    ensures StartsWith(Join([first] + rest), first + "\n")
  {
    JoinAppend([first], rest);
    JoinOne(first);
    PrefixOfConcat(first + "\n", Join(rest));
  }

  lemma TextEndsWithLastTwo(front: seq<string>, x: string, y: string)
    ensures var text := Join(front + [x, y]);
            var tail := x + "\n" + y + "\n";
            |tail| <= |text| && text[|text| - |tail|..] == tail
  {
    JoinAppend(front, [x, y]);
    JoinTwo(x, y);
    SuffixOfConcat(Join(front), Join([x, y]));
  }

  /** The report text starts with its title and ends with the heat-map
      image reference. */
  lemma ReportFraming(year: string, ts: seq<Ranked>, ta: seq<Ranked>, tb: seq<Ranked>)
    requires |ts| >= 13 && |ta| >= 13 && |tb| >= 13
    ensures StartsWith(Join(ReportLines(year, ts, ta, tb)), TitleLine(year) + "\n")
    ensures var text := Join(ReportLines(year, ts, ta, tb));
            var tail := HeatMapHeading + "\n" + HeatMapImage(year) + "\n";
            |tail| <= |text| && text[|text| - |tail|..] == tail
  {
    var head := [TitleLine(year)];
    var body := Sections(year, ts, ta, tb, 13);
    var tail := HeatMapLines(year);
    assert ReportLines(year, ts, ta, tb) == head + (body + tail);
    TextStartsWithFirstLine(TitleLine(year), body + tail);
    assert ReportLines(year, ts, ta, tb) == (head + body) + tail;
    TextEndsWithLastTwo(head + body, HeatMapHeading, HeatMapImage(year));
  }
}

/** One listening event (the source's `Song`), the device classification its
    constructor performs, and how `Music.read` turns raw export rows into
    events: fill a missing timestamp from the other one, drop unusable rows,
    keep the target year. */
module Songs {
  import opened Optional
  import opened Calendar
  import opened Text

  /** The `Build Version` cell: a string, or a non-string value (a null cell
      reads as a floating-point NaN). */
  datatype BuildVersion = VersionText(text: string) | NotText

  /** The device field: left at its default `''`, `'MacBook Pro'` or `'iPhone'`. */
  datatype Device = Unset | MacBookPro | IPhone {
    function Label(): string {
      match this
      case Unset => ""
      case MacBookPro => "MacBook Pro"
      case IPhone => "iPhone"
    }
  }

  /** The desktop media application marker and the phone marker. */
  const DesktopMarker: string := "iTunes"
  const PhoneMarker: string := "iPhone"

  function ClassifyDevice(v: BuildVersion): Device {
    match v
    case NotText => IPhone
    case VersionText(s) =>
      if Contains(s, DesktopMarker) then MacBookPro
      else if Contains(s, PhoneMarker) then IPhone
      else Unset
  }

  /** The desktop marker wins over the phone marker; a non-string gives the
      phone; a string with neither marker leaves the device unset. */
  lemma DevicePriority(v: BuildVersion)
    ensures v.VersionText? && HasSubstring(v.text, DesktopMarker) ==> ClassifyDevice(v) == MacBookPro
    ensures v.VersionText? && !HasSubstring(v.text, DesktopMarker) ==>
              ClassifyDevice(v) == (if HasSubstring(v.text, PhoneMarker) then IPhone else Unset)
    ensures v.NotText? ==> ClassifyDevice(v) == IPhone
  {
    if v.VersionText? {
      ContainsIsSubstring(v.text, DesktopMarker);
      ContainsIsSubstring(v.text, PhoneMarker);
    }
  }

  /** A build string naming both applications is classified as the desktop. */
  lemma BothMarkersGiveDesktop()
    ensures ClassifyDevice(VersionText("iTunes/12.9 (iPhone OS 12.1)")) == MacBookPro
  {
    var s := "iTunes/12.9 (iPhone OS 12.1)";
    assert StartsWith(s[0..], DesktopMarker);
    ContainsIsSubstring(s, DesktopMarker);
  }

  datatype Song = Song(
    startTime: Timestamp,
    songName: Option<string>,
    artistName: Option<string>,
    containerName: Option<string>,
    device: Device)

  /** `Song(start_time, name, artist, container, device)`. */
  function MakeSong(start: Timestamp, name: Option<string>, artist: Option<string>,
                    container: Option<string>, version: BuildVersion): (s: Song)
    ensures s.startTime == start && s.songName == name
    ensures s.artistName == artist && s.containerName == container
    ensures s.device == ClassifyDevice(version)
  {
    Song(start, name, artist, container, ClassifyDevice(version))
  }

  /** One row of the export, timestamps already parsed. */
  datatype Row = Row(
    start: Option<Timestamp>,
    end: Option<Timestamp>,
    songName: Option<string>,
    artistName: Option<string>,
    containerName: Option<string>,
    buildVersion: BuildVersion)

  /** The missing-data handling of `read`: a row with no timestamp at all or
      no song name is dropped; otherwise a missing timestamp is copied from
      the other one. */
  function Normalize(r: Row): (res: Option<Row>)
    ensures res.Some? <==> (r.start.Some? || r.end.Some?) && r.songName.Some?
    ensures res.Some? ==> res.value.start.Some? && res.value.end.Some?
    ensures res.Some? ==> res.value.start == (if r.start.Some? then r.start else r.end)
    ensures res.Some? ==> res.value.end == (if r.end.Some? then r.end else r.start)
    ensures res.Some? ==> res.value.(start := r.start, end := r.end) == r
  {
    if r.start.None? && r.end.None? then None
    else
      var filled :=
        if r.start.None? then r.(start := r.end)
        else if r.end.None? then r.(end := r.start)
        else r;
      if filled.songName.None? then None else Some(filled)
  }

  /** Normalising a normalised row changes nothing. */
  lemma NormalizeIdempotent(r: Row)
    requires Normalize(r).Some?
    ensures Normalize(Normalize(r).value) == Normalize(r)
  {
  }

  /** The event `read` appends for one row, if any: the row survives
      normalisation and its start timestamp's year (in source time) is the
      target year. */
  function LoadRow(r: Row, year: int): (res: Option<Song>)
    ensures res.Some? <==> Normalize(r).Some? && Normalize(r).value.start.value.date.year == year
    ensures res.Some? ==> res.value.songName == r.songName && res.value.songName.Some?
    ensures res.Some? ==> res.value.startTime.date.year == year
    ensures res.Some? ==> res.value == MakeSong(Normalize(r).value.start.value, r.songName,
                                                r.artistName, r.containerName, r.buildVersion)
  {
    match Normalize(r)
    case None => None
    case Some(n) =>
      var t := n.start.value;
      if t.date.year == year then
        Some(MakeSong(t, n.songName, n.artistName, n.containerName, n.buildVersion))
      else None
  }

  /** The events one row contributes: none or one. */
  function RowEvents(r: Row, year: int): seq<Song> {
    match LoadRow(r, year)
    case Some(s) => [s]
    case None => []
  }

  /** The events `read` appends for a sequence of rows, in row order. */
  function Loaded(rows: seq<Row>, year: int): (songs: seq<Song>)
    ensures |songs| <= |rows|
  {
    if rows == [] then []
    else Loaded(rows[..|rows| - 1], year) + RowEvents(rows[|rows| - 1], year)
  }

  lemma InitOfAppend<T>(a: seq<T>, b: seq<T>)
    requires b != []
    ensures (a + b)[..|a + b| - 1] == a + b[..|b| - 1]
    ensures (a + b)[|a + b| - 1] == b[|b| - 1]
  {
  }

  /** Loading is row by row: the events of a concatenation are the events of
      its parts, in order. */
  lemma {:induction false} LoadedAppend(a: seq<Row>, b: seq<Row>, year: int)
    ensures Loaded(a + b, year) == Loaded(a, year) + Loaded(b, year)
    decreases |b|
  {
    if b == [] {
      assert a + b == a;
    } else {
      var ab := a + b;
      var init := b[..|b| - 1];
      InitOfAppend(a, b);
      LoadedAppend(a, init, year);
      var la, li, x := Loaded(a, year), Loaded(init, year), RowEvents(b[|b| - 1], year);
      assert Loaded(ab, year) == la + li + x;
      assert Loaded(b, year) == li + x;
      assert la + li + x == la + (li + x);
    }
  }

  /** One more row adds that row's events. */
  lemma LoadedStep(rows: seq<Row>, i: int, year: int)
    requires 0 <= i < |rows|
    ensures Loaded(rows[..i + 1], year) == Loaded(rows[..i], year) + RowEvents(rows[i], year)
  {
    assert rows[..i + 1][..i] == rows[..i];
    assert rows[..i + 1][i] == rows[i];
  }

  /** Every loaded event is the event of one of the rows, so it has a song
      name and starts in the target year (in source time); every row that
      passes is loaded. */
  lemma {:induction false} LoadedExactlyTheUsableRows(rows: seq<Row>, year: int)
    ensures forall s :: s in Loaded(rows, year) ==>
              exists i :: 0 <= i < |rows| && LoadRow(rows[i], year) == Some(s)
    ensures forall s :: s in Loaded(rows, year) ==> s.songName.Some? && s.startTime.date.year == year
    ensures forall i :: 0 <= i < |rows| && LoadRow(rows[i], year).Some? ==>
              LoadRow(rows[i], year).value in Loaded(rows, year)
  {
    if rows != [] {
      var init := rows[..|rows| - 1];
      var last := |rows| - 1;
      LoadedExactlyTheUsableRows(init, year);
      forall s | s in Loaded(rows, year)
        ensures exists i :: 0 <= i < |rows| && LoadRow(rows[i], year) == Some(s)
      {
        if s in Loaded(init, year) {
          var i :| 0 <= i < |init| && LoadRow(init[i], year) == Some(s);
          assert rows[i] == init[i];
        } else {
          assert LoadRow(rows[last], year) == Some(s);
        }
      }
      forall i | 0 <= i < |rows| && LoadRow(rows[i], year).Some?
        ensures LoadRow(rows[i], year).value in Loaded(rows, year)
      {
        if i < |init| {
          assert rows[i] == init[i];
        }
      }
    }
  }
}

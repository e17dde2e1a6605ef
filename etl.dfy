/** The loader: the per-file transforms from parsed JSON records to table
    rows, as pure functions over sequences, and the driver that issues the
    INSERT statements for each file and commits after each file. */
module Etl {
  import opened Values
  import opened SqlQueries
  import opened Database

  // ---------------------------------------------------------------------
  // Parsed input
  // ---------------------------------------------------------------------

  /** One line of a song-metadata file. */
  datatype SongRecord = SongRecord(
    songId: string, title: Value, artistId: string, year: Value, duration: Value,
    artistName: Value, artistLocation: Value, artistLatitude: Value, artistLongitude: Value)

  /** One line of an activity-log file. */
  datatype LogRecord = LogRecord(
    page: Value, ts: int, userId: int, firstName: Value, lastName: Value, gender: Value,
    level: Value, song: Value, artist: Value, length: Value, sessionId: Value,
    location: Value, userAgent: Value)

  /** A discovered file with its parsed lines; its kind selects the
      per-file function the driver applies to it. */
  datatype DataFile = SongFile(songRows: seq<SongRecord>) | LogFile(logRows: seq<LogRecord>)

  /** The calendar components of a timestamp (hour, day, week, month, year,
      weekday), as the date library derives them. */
  datatype Calendar = Calendar(hour: int, day: int, week: int, month: int, year: int, weekday: int)

  /** A (song_id, artist_id) result row of the song lookup. */
  type Pair = (string, string)

  // ---------------------------------------------------------------------
  // Song files
  // ---------------------------------------------------------------------

  /** The song columns of a row, in statement order, as they are. */
  function SongData(r: SongRecord): Song {
    Song(r.songId, r.title, r.artistId, r.year, r.duration)
  }

  /** The artist columns of a row, in statement order, each NaN float
      replaced by None. */
  function ArtistData(r: SongRecord): Artist {
    Artist(r.artistId, NaNToNull(r.artistName), NaNToNull(r.artistLocation),
           NaNToNull(r.artistLatitude), NaNToNull(r.artistLongitude))
  }

  /** The statements a song file issues, or None when row 0 does not exist
      and the row lookup raises. */
  function SongFileInserts(rows: seq<SongRecord>): Option<seq<Insert>> {
    if rows == [] then None
    else Some([SongInsert(SongData(rows[0])), ArtistInsert(ArtistData(rows[0]))])
  }

  // ---------------------------------------------------------------------
  // Log files
  // ---------------------------------------------------------------------

  predicate IsNextSong(r: LogRecord) {
    r.page == Str("NextSong")
  }

  /** The positions at which a boolean mask is true, in ascending order:
      the rows a boolean selection keeps. */
  function Positions(mask: seq<bool>): (ps: seq<nat>)
    ensures forall k :: 0 <= k < |ps| ==> ps[k] < |mask| && mask[ps[k]]
    decreases |mask|
  {
    if mask == [] then []
    else
      var n := |mask| - 1;
      Positions(mask[..n]) + (if mask[n] then [n] else [])
  }

  /** The positions come in ascending order. */
  lemma {:induction false} PositionsIncreasing(mask: seq<bool>)
    ensures forall k, l :: 0 <= k < l < |Positions(mask)| ==> Positions(mask)[k] < Positions(mask)[l]
    decreases |mask|
  {
    if mask != [] {
      var n := |mask| - 1;
      var front := Positions(mask[..n]);
      PositionsIncreasing(mask[..n]);
      var ps := Positions(mask);
      assert ps == front + (if mask[n] then [n] else []);
      forall k, l | 0 <= k < l < |ps|
        ensures ps[k] < ps[l]
      {
        if l < |front| {
          assert ps[k] == front[k] && ps[l] == front[l];
        } else {
          assert ps[k] == front[k] < n;
        }
      }
    }
  }

  /** Every position at which the mask is true is kept. */
  lemma {:induction false} PositionsCover(mask: seq<bool>, i: nat)
    requires i < |mask| && mask[i]
    ensures i in Positions(mask)
    decreases |mask|
  {
    var n := |mask| - 1;
    if i < n {
      PositionsCover(mask[..n], i);
    }
  }

  /** A retained row and its index in the whole file. */
  datatype Indexed = Indexed(index: nat, record: LogRecord)

  function NextSongMask(rs: seq<LogRecord>): (m: seq<bool>)
    ensures |m| == |rs|
  {
    seq(|rs|, i requires 0 <= i < |rs| => IsNextSong(rs[i]))
  }

  /** The NextSong rows, each with the index it had before the filter. */
  function Retained(rs: seq<LogRecord>): (out: seq<Indexed>)
    ensures forall k :: 0 <= k < |out| ==>
      out[k].index < |rs| && rs[out[k].index] == out[k].record && IsNextSong(out[k].record)
  {
    var ps := Positions(NextSongMask(rs));
    seq(|ps|, k requires 0 <= k < |ps| => Indexed(ps[k], rs[ps[k]]))
  }

  /** The retained rows keep the file's order. */
  lemma RetainedIncreasing(rs: seq<LogRecord>)
    ensures forall k, l :: 0 <= k < l < |Retained(rs)| ==> Retained(rs)[k].index < Retained(rs)[l].index
  {
    var ps := Positions(NextSongMask(rs));
    PositionsIncreasing(NextSongMask(rs));
    var out := Retained(rs);
    forall k, l | 0 <= k < l < |out|
      ensures out[k].index < out[l].index
    {
      assert out[k].index == ps[k] && out[l].index == ps[l];
    }
  }

  /** Every NextSong row is retained. */
  lemma RetainedCovers(rs: seq<LogRecord>, i: nat)
    requires i < |rs| && IsNextSong(rs[i])
    ensures exists k :: 0 <= k < |Retained(rs)| && Retained(rs)[k].index == i
  {
    var ps := Positions(NextSongMask(rs));
    PositionsCover(NextSongMask(rs), i);
    var k :| 0 <= k < |ps| && ps[k] == i;
    assert Retained(rs)[k].index == i;
  }

  /** The mask of `drop_duplicates(keep="first")`: no earlier equal key. */
  function KeepFirstMask(keys: seq<int>): (m: seq<bool>)
    ensures |m| == |keys|
  {
    seq(|keys|, i requires 0 <= i < |keys| => forall j :: 0 <= j < i ==> keys[j] != keys[i])
  }

  /** The mask of `drop_duplicates(keep="last")`: no later equal key. */
  function KeepLastMask(keys: seq<int>): (m: seq<bool>)
    ensures |m| == |keys|
  {
    seq(|keys|, i requires 0 <= i < |keys| => forall j :: i < j < |keys| ==> keys[j] != keys[i])
  }

  function TimeRow(r: LogRecord, calendar: int -> Calendar): Time {
    var c := calendar(r.ts);
    Time(r.ts, c.hour, c.day, c.week, c.month, c.year, c.weekday)
  }

  function TsKeys(ret: seq<Indexed>): (keys: seq<int>)
    ensures |keys| == |ret|
    ensures forall k :: 0 <= k < |ret| ==> keys[k] == ret[k].record.ts
  {
    seq(|ret|, k requires 0 <= k < |ret| => ret[k].record.ts)
  }

  /** The positions, among the retained rows, of the time rows kept. */
  function TimeKept(ret: seq<Indexed>): (ps: seq<nat>)
    ensures forall k :: 0 <= k < |ps| ==> ps[k] < |ret|
  {
    Positions(KeepFirstMask(TsKeys(ret)))
  }

  /** The time frame, deduplicated on start_time keeping the first. */
  function TimeRows(ret: seq<Indexed>, calendar: int -> Calendar): seq<Time> {
    var ps := TimeKept(ret);
    seq(|ps|, k requires 0 <= k < |ps| => TimeRow(ret[ps[k]].record, calendar))
  }

  function UserRow(r: LogRecord): User {
    User(r.userId, r.firstName, r.lastName, r.gender, r.level)
  }

  function UserKeys(ret: seq<Indexed>): (keys: seq<int>)
    ensures |keys| == |ret|
    ensures forall k :: 0 <= k < |ret| ==> keys[k] == ret[k].record.userId
  {
    seq(|ret|, k requires 0 <= k < |ret| => ret[k].record.userId)
  }

  /** The positions, among the retained rows, of the user rows kept. */
  function UserKept(ret: seq<Indexed>): (ps: seq<nat>)
    ensures forall k :: 0 <= k < |ps| ==> ps[k] < |ret|
  {
    Positions(KeepLastMask(UserKeys(ret)))
  }

  /** The user frame, deduplicated on user_id keeping the last. */
  function UserRows(ret: seq<Indexed>): seq<User> {
    var ps := UserKept(ret);
    seq(|ps|, k requires 0 <= k < |ps| => UserRow(ret[ps[k]].record))
  }

  /** `song_select` with the row's song, artist and length, then
      `fetchone()`; which row comes first among several is the datastore's
      choice, `fetch`. */
  function Lookup(songs: map<string, Song>, artists: map<string, Artist>, r: LogRecord,
                  fetch: set<Pair> -> Option<Pair>): Option<Pair>
  {
    fetch(SongSelect(songs, artists, r.song, r.artist, r.length))
  }

  /** The songplay parameters of a retained row: its pre-filter index as
      songplay_id, and song and artist ids from the lookup or both None. */
  function SongplayRow(x: Indexed, hit: Option<Pair>): Songplay {
    Songplay(x.index, x.record.ts, x.record.userId, x.record.level,
             if hit.Some? then Str(hit.value.0) else Null,
             if hit.Some? then Str(hit.value.1) else Null,
             x.record.sessionId, x.record.location, x.record.userAgent)
  }

  function SongplayRows(ret: seq<Indexed>, songs: map<string, Song>, artists: map<string, Artist>,
                        fetch: set<Pair> -> Option<Pair>): (rows: seq<Songplay>)
    ensures |rows| == |ret|
  {
    seq(|ret|, k requires 0 <= k < |ret| => SongplayRow(ret[k], Lookup(songs, artists, ret[k].record, fetch)))
  }

  function TimeInserts(rows: seq<Time>): (ss: seq<Insert>)
    ensures |ss| == |rows|
  {
    seq(|rows|, k requires 0 <= k < |rows| => TimeInsert(rows[k]))
  }

  function UserInserts(rows: seq<User>): (ss: seq<Insert>)
    ensures |ss| == |rows|
  {
    seq(|rows|, k requires 0 <= k < |rows| => UserInsert(rows[k]))
  }

  function SongplayInserts(rows: seq<Songplay>): (ss: seq<Insert>)
    ensures |ss| == |rows|
  {
    seq(|rows|, k requires 0 <= k < |rows| => SongplayInsert(rows[k]))
  }

  /** The statements a log file issues, in order: its time rows, its user
      rows, then one songplay per retained row. The lookups read `songs`
      and `artists` as they are when the file is processed. */
  function LogFileInserts(rs: seq<LogRecord>, calendar: int -> Calendar,
                          songs: map<string, Song>, artists: map<string, Artist>,
                          fetch: set<Pair> -> Option<Pair>): seq<Insert>
  {
    var ret := Retained(rs);
    TimeInserts(TimeRows(ret, calendar)) + UserInserts(UserRows(ret))
      + SongplayInserts(SongplayRows(ret, songs, artists, fetch))
  }

  // ---------------------------------------------------------------------
  // The run
  // ---------------------------------------------------------------------

  /** The statements one file issues against tables `t`, or None when the
      per-file function raises: a song file without row 0, or an empty log
      file, whose frame has no `page` column to filter on. */
  function FileInserts(t: Tables, f: DataFile, calendar: int -> Calendar,
                       fetch: set<Pair> -> Option<Pair>): (r: Option<seq<Insert>>)
    ensures r.None? <==> (if f.SongFile? then f.songRows == [] else f.logRows == [])
  {
    match f
    case SongFile(rows) => SongFileInserts(rows)
    case LogFile(rows) =>
      if rows == [] then None else Some(LogFileInserts(rows, calendar, t.songs, t.artists, fetch))
  }

  // LoadFiles, LoadFirst and LoadFileThen are one recursion split in three,
  // like ExecAll and ExecLast, so that the solver's unfolding of a call
  // never reaches the statements of a file unless a proof asks for them.

  /** Processing `files` in order from tables `t`: the tables after the
      longest prefix of files that succeeded, and the length of that
      prefix. The run stops at the first file that raises. */
  function LoadFiles(t: Tables, files: seq<DataFile>, calendar: int -> Calendar,
                     fetch: set<Pair> -> Option<Pair>): (r: (Tables, nat))
    ensures r.1 <= |files|
    decreases |files|, 2
  {
    if files == [] then (t, 0) else LoadFirst(t, files, calendar, fetch)
  }

  /** `LoadFiles` on a non-empty list: the first file, then, if it did not
      raise, the rest from the tables it left. */
  function LoadFirst(t: Tables, files: seq<DataFile>, calendar: int -> Calendar,
                     fetch: set<Pair> -> Option<Pair>): (r: (Tables, nat))
    requires files != []
    ensures r.1 <= |files|
    decreases |files|, 1
  {
    LoadFileThen(t, FileInserts(t, files[0], calendar, fetch), files[1..], calendar, fetch)
  }

  /** The statements `ins` of one file, or None when it raised, then, if it
      did not raise, the files `rest` from the tables those statements left. */
  function LoadFileThen(t: Tables, ins: Option<seq<Insert>>, rest: seq<DataFile>,
                        calendar: int -> Calendar, fetch: set<Pair> -> Option<Pair>): (r: (Tables, nat))
    ensures r.1 <= |rest| + 1
    decreases |rest| + 1, 0
  {
    match ins
    case None => (t, 0)
    case Some(ss) =>
      var more := LoadFiles(ExecAll(t, ss), rest, calendar, fetch);
      (more.0, more.1 + 1)
  }

  /** `LoadFiles` when the first file raises: nothing is loaded. */
  lemma LoadFilesStops(t: Tables, files: seq<DataFile>, calendar: int -> Calendar,
                       fetch: set<Pair> -> Option<Pair>)
    requires files != [] && FileInserts(t, files[0], calendar, fetch).None?
    ensures LoadFiles(t, files, calendar, fetch) == (t, 0)
  {
    assert LoadFiles(t, files, calendar, fetch) == LoadFirst(t, files, calendar, fetch)
      == LoadFileThen(t, FileInserts(t, files[0], calendar, fetch), files[1..], calendar, fetch);
  }

  /** `LoadFiles` when the first file succeeds and turns `t` into `u`: one
      more file, then the run of the rest on `u`. */
  lemma LoadFilesGoesOn(t: Tables, ss: seq<Insert>, files: seq<DataFile>,
                        calendar: int -> Calendar, fetch: set<Pair> -> Option<Pair>)
    requires files != [] && FileInserts(t, files[0], calendar, fetch) == Some(ss)
    ensures var rest := LoadFiles(ExecAll(t, ss), files[1..], calendar, fetch);
      LoadFiles(t, files, calendar, fetch) == (rest.0, rest.1 + 1)
  {
    assert LoadFiles(t, files, calendar, fetch) == LoadFirst(t, files, calendar, fetch)
      == LoadFileThen(t, Some(ss), files[1..], calendar, fetch);
  }

  /** A run of one file: the tables its statements leave and 1, or the
      tables unchanged and 0 when it raises. */
  lemma LoadOne(t: Tables, f: DataFile, calendar: int -> Calendar, fetch: set<Pair> -> Option<Pair>)
    ensures LoadFiles(t, [f], calendar, fetch) ==
      match FileInserts(t, f, calendar, fetch)
      case None => (t, 0)
      case Some(ss) => (ExecAll(t, ss), 1)
  {
    assert [f][0] == f && [f][1..] == [];
    assert LoadFiles(t, [f], calendar, fetch) == LoadFirst(t, [f], calendar, fetch)
      == LoadFileThen(t, FileInserts(t, f, calendar, fetch), [], calendar, fetch);
  }

  /** The run of the files from `i` on is the run of file `i` alone, then,
      if it did not raise, the run of the files after it. */
  lemma LoadFilesSplit(t: Tables, files: seq<DataFile>, i: nat, calendar: int -> Calendar,
                       fetch: set<Pair> -> Option<Pair>)
    requires i < |files|
    ensures var one := LoadFiles(t, [files[i]], calendar, fetch);
      var rest := LoadFiles(one.0, files[i + 1..], calendar, fetch);
      LoadFiles(t, files[i..], calendar, fetch) == if one.1 == 0 then (t, 0) else (rest.0, rest.1 + 1)
  {
    LoadOne(t, files[i], calendar, fetch);
    assert files[i..][0] == files[i] && files[i..][1..] == files[i + 1..];
    match FileInserts(t, files[i], calendar, fetch)
    case None =>
      LoadFilesStops(t, files[i..], calendar, fetch);
    case Some(ss) =>
      LoadFilesGoesOn(t, ss, files[i..], calendar, fetch);
  }

  /** A run that loads no file leaves the tables as they were. */
  lemma LoadFilesNothingLoaded(t: Tables, files: seq<DataFile>, calendar: int -> Calendar,
                               fetch: set<Pair> -> Option<Pair>)
    ensures LoadFiles(t, files, calendar, fetch).1 == 0 ==> LoadFiles(t, files, calendar, fetch).0 == t
  {
    if files != [] {
      assert LoadFiles(t, files, calendar, fetch) == LoadFirst(t, files, calendar, fetch)
      == LoadFileThen(t, FileInserts(t, files[0], calendar, fetch), files[1..], calendar, fetch);
    }
  }

  /** Running `a` then `b` is running `a + b`: if some file of `a` raises,
      the run ends there; otherwise `b` runs from the tables `a` left. */
  lemma {:induction false} LoadFilesAppend(t: Tables, a: seq<DataFile>, b: seq<DataFile>,
                                           calendar: int -> Calendar, fetch: set<Pair> -> Option<Pair>)
    ensures var first := LoadFiles(t, a, calendar, fetch);
      var rest := LoadFiles(first.0, b, calendar, fetch);
      LoadFiles(t, a + b, calendar, fetch) == if first.1 < |a| then first else (rest.0, |a| + rest.1)
    decreases |a|
  {
    if a == [] {
      assert a + b == b;
    } else {
      assert (a + b)[0] == a[0] && (a + b)[1..] == a[1..] + b;
      assert LoadFiles(t, a + b, calendar, fetch) == LoadFirst(t, a + b, calendar, fetch)
        == LoadFileThen(t, FileInserts(t, a[0], calendar, fetch), a[1..] + b, calendar, fetch);
      assert LoadFiles(t, a, calendar, fetch) == LoadFirst(t, a, calendar, fetch)
        == LoadFileThen(t, FileInserts(t, a[0], calendar, fetch), a[1..], calendar, fetch);
      match FileInserts(t, a[0], calendar, fetch)
      case None =>
      case Some(ss) =>
        LoadFilesAppend(ExecAll(t, ss), a[1..], b, calendar, fetch);
    }
  }

  /** `process_song_file`: row 0's song, then its artist. */
  method ProcessSongFile(db: Db, rows: seq<SongRecord>) returns (ok: bool)
    requires db.Valid()
    modifies db
    ensures db.Valid() && db.committed == old(db.committed)
    ensures ok == SongFileInserts(rows).Some?
    ensures ok ==> db.Current() == ExecAll(old(db.Current()), SongFileInserts(rows).value)
    ensures !ok ==> db.Current() == old(db.Current())
  {
    if rows == [] {
      // df.loc[0, ...] raises: nothing is inserted
      return false;
    }
    ghost var t0 := db.Current();
    ghost var ss := SongFileInserts(rows).value;
    db.InsertSong(SongData(rows[0]));
    ExecAllStep(t0, ss, 0);
    db.InsertArtist(ArtistData(rows[0]));
    ExecAllStep(t0, ss, 1);
    assert ss[..0] == [] && ss[..2] == ss;
    ok := true;
  }

  /** The loop over the deduplicated time frame. */
  method InsertTimeRows(db: Db, rows: seq<Time>)
    requires db.Valid()
    modifies db
    ensures db.Valid() && db.committed == old(db.committed)
    ensures db.songs == old(db.songs) && db.artists == old(db.artists)
    ensures db.Current() == ExecAll(old(db.Current()), TimeInserts(rows))
  {
    ghost var t0 := db.Current();
    ghost var ss := TimeInserts(rows);
    assert ss[..0] == [];
    for i := 0 to |rows|
      invariant db.Valid() && db.committed == old(db.committed)
      invariant db.songs == t0.songs && db.artists == t0.artists
      invariant db.Current() == ExecAll(t0, ss[..i])
    {
      ExecAllStep(t0, ss, i);
      db.InsertTime(rows[i]);
    }
    assert ss[..|rows|] == ss;
  }

  /** The loop over the deduplicated user frame. */
  method InsertUserRows(db: Db, rows: seq<User>)
    requires db.Valid()
    modifies db
    ensures db.Valid() && db.committed == old(db.committed)
    ensures db.songs == old(db.songs) && db.artists == old(db.artists)
    ensures db.Current() == ExecAll(old(db.Current()), UserInserts(rows))
  {
    ghost var t0 := db.Current();
    ghost var ss := UserInserts(rows);
    assert ss[..0] == [];
    for i := 0 to |rows|
      invariant db.Valid() && db.committed == old(db.committed)
      invariant db.songs == t0.songs && db.artists == t0.artists
      invariant db.Current() == ExecAll(t0, ss[..i])
    {
      ExecAllStep(t0, ss, i);
      db.InsertUser(rows[i]);
    }
    assert ss[..|rows|] == ss;
  }

  /** The loop over the retained rows: look the song up, insert a songplay. */
  method InsertSongplays(db: Db, ret: seq<Indexed>, fetch: set<Pair> -> Option<Pair>)
    requires db.Valid()
    modifies db
    ensures db.Valid() && db.committed == old(db.committed)
    ensures db.Current() == ExecAll(old(db.Current()), SongplayInserts(SongplayRows(ret, old(db.songs), old(db.artists), fetch)))
  {
    ghost var t0 := db.Current();
    ghost var ss := SongplayInserts(SongplayRows(ret, t0.songs, t0.artists, fetch));
    assert ss[..0] == [];
    for i := 0 to |ret|
      invariant db.Valid() && db.committed == old(db.committed)
      invariant db.songs == t0.songs && db.artists == t0.artists
      invariant db.Current() == ExecAll(t0, ss[..i])
    {
      var r := ret[i].record;
      var found := SongSelect(db.songs, db.artists, r.song, r.artist, r.length);
      var hit := fetch(found);
      assert ss[i] == SongplayInsert(SongplayRow(ret[i], hit));
      ExecAllStep(t0, ss, i);
      db.InsertSongplay(SongplayRow(ret[i], hit));
    }
    assert ss[..|ret|] == ss;
  }

  /** `process_log_file`: filter the NextSong rows; insert the deduplicated
      time rows, then the deduplicated user rows, then, per retained row,
      look the song up and insert a songplay. An empty file raises at the
      filter and inserts nothing. */
  method ProcessLogFile(db: Db, rs: seq<LogRecord>, calendar: int -> Calendar,
                        fetch: set<Pair> -> Option<Pair>) returns (ok: bool)
    requires db.Valid()
    modifies db
    ensures db.Valid() && db.committed == old(db.committed)
    ensures ok == (rs != [])
    ensures ok ==> db.Current() == ExecAll(old(db.Current()), LogFileInserts(rs, calendar, old(db.songs), old(db.artists), fetch))
    ensures !ok ==> db.Current() == old(db.Current())
  {
    if rs == [] {
      // df["page"] raises: the frame of an empty file has no columns
      return false;
    }
    ghost var t0 := db.Current();
    var ret := Retained(rs);
    var timeRows := TimeRows(ret, calendar);
    InsertTimeRows(db, timeRows);
    ghost var t1 := db.Current();
    var userRows := UserRows(ret);
    InsertUserRows(db, userRows);
    ghost var t2 := db.Current();
    InsertSongplays(db, ret, fetch);
    ghost var a := TimeInserts(timeRows);
    ghost var b := UserInserts(userRows);
    ghost var c := SongplayInserts(SongplayRows(ret, t0.songs, t0.artists, fetch));
    ExecAllAppend(t0, a, b);
    ExecAllAppend(t0, a + b, c);
    ok := true;
  }

  /** The per-file function the driver applies, chosen by the file's kind:
      processing the file is a run of that one file. */
  method ProcessFile(db: Db, f: DataFile, calendar: int -> Calendar,
                     fetch: set<Pair> -> Option<Pair>) returns (ok: bool)
    requires db.Valid()
    modifies db
    ensures db.Valid() && db.committed == old(db.committed)
    ensures LoadFiles(old(db.Current()), [f], calendar, fetch) == (db.Current(), if ok then 1 else 0)
    ensures !ok ==> db.Current() == old(db.Current())
  {
    ghost var t := db.Current();
    LoadOne(t, f, calendar, fetch);
    match f
    case SongFile(rows) =>
      ok := ProcessSongFile(db, rows);
    case LogFile(rows) =>
      ok := ProcessLogFile(db, rows, calendar, fetch);
  }

  /** `process_data`: apply the per-file function to each file in list
      order and commit after each. A file that raises aborts the run; what
      was committed before it stays. */
  method ProcessData(db: Db, files: seq<DataFile>, calendar: int -> Calendar,
                     fetch: set<Pair> -> Option<Pair>) returns (ok: bool)
    requires db.Valid()
    modifies db
    ensures db.Valid()
    ensures db.Current() == LoadFiles(old(db.Current()), files, calendar, fetch).0
    ensures ok <==> LoadFiles(old(db.Current()), files, calendar, fetch).1 == |files|
    ensures LoadFiles(old(db.Current()), files, calendar, fetch).1 == 0 ==> db.committed == old(db.committed)
    ensures LoadFiles(old(db.Current()), files, calendar, fetch).1 > 0 ==> db.committed == db.Current()
  {
    ghost var total := LoadFiles(db.Current(), files, calendar, fetch);
    ghost var cur := db.Current();
    var i := 0;
    assert files[i..] == files;
    while i < |files|
      invariant 0 <= i <= |files|
      invariant db.Valid() && db.Current() == cur
      invariant total == (LoadFiles(cur, files[i..], calendar, fetch).0, LoadFiles(cur, files[i..], calendar, fetch).1 + i)
      invariant i == 0 ==> db.committed == old(db.committed)
      invariant i > 0 ==> db.committed == cur
    {
      var fileOk := ProcessFile(db, files[i], calendar, fetch);
      LoadFilesSplit(cur, files, i, calendar, fetch);
      if !fileOk {
        return false;
      }
      db.Commit();
      cur := db.Current();
      i := i + 1;
    }
    ok := true;
  }

  /** `main`: the song files, then the log files, so that the songplay
      lookups see the songs and artists already loaded. A raise in the
      first call ends the program before the second. */
  method Run(db: Db, songFiles: seq<DataFile>, logFiles: seq<DataFile>, calendar: int -> Calendar,
             fetch: set<Pair> -> Option<Pair>) returns (ok: bool)
    requires db.Valid()
    modifies db
    ensures db.Valid()
    ensures db.Current() == LoadFiles(old(db.Current()), songFiles + logFiles, calendar, fetch).0
    ensures ok <==> LoadFiles(old(db.Current()), songFiles + logFiles, calendar, fetch).1 == |songFiles| + |logFiles|
    ensures LoadFiles(old(db.Current()), songFiles + logFiles, calendar, fetch).1 == 0 ==> db.committed == old(db.committed)
    ensures LoadFiles(old(db.Current()), songFiles + logFiles, calendar, fetch).1 > 0 ==> db.committed == db.Current()
  {
    ghost var t := db.Current();
    LoadFilesAppend(t, songFiles, logFiles, calendar, fetch);
    ok := ProcessData(db, songFiles, calendar, fetch);
    if !ok {
      return;
    }
    ghost var t1 := db.Current();
    LoadFilesNothingLoaded(t1, logFiles, calendar, fetch);
    ok := ProcessData(db, logFiles, calendar, fetch);
  }
}

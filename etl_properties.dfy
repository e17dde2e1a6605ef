/** What the loader guarantees about the rows it derives from a file and
    about the tables after it has run. */
module EtlProperties {
  import opened Values
  import opened SqlQueries
  import opened Etl

  // ---------------------------------------------------------------------
  // Song files
  // ---------------------------------------------------------------------

  /** `dst` is `src` after the NaN coercion: None for a NaN float, else
      unchanged. */
  predicate Coerced(src: Value, dst: Value) {
    if IsNaNFloat(src) then dst == Null else dst == src
  }

  /** A song file with a row 0 issues exactly a song insert and an artist
      insert built from that row alone: the song columns unchanged, the
      artist columns with NaN floats turned into None. A file without a row
      0 fails. */
  lemma SongFileFromRowZero(rows: seq<SongRecord>)
    ensures SongFileInserts(rows).None? <==> rows == []
    ensures rows != [] ==>
      var ss := SongFileInserts(rows).value;
      var r := rows[0];
      && |ss| == 2 && ss[0].SongInsert? && ss[1].ArtistInsert?
      && ss[0].song.songId == r.songId && ss[0].song.title == r.title
      && ss[0].song.artistId == r.artistId && ss[0].song.year == r.year
      && ss[0].song.duration == r.duration
      && ss[1].artist.artistId == r.artistId
      && Coerced(r.artistName, ss[1].artist.name)
      && Coerced(r.artistLocation, ss[1].artist.location)
      && Coerced(r.artistLatitude, ss[1].artist.latitude)
      && Coerced(r.artistLongitude, ss[1].artist.longitude)
  {
  }

  /** Processing a song file twice in a row leaves the tables as processing
      it once: one song row and one artist row. */
  lemma SongFileIdempotent(t: Tables, rows: seq<SongRecord>)
    requires rows != []
    ensures var ss := SongFileInserts(rows).value;
      ExecAll(ExecAll(t, ss), ss) == ExecAll(t, ss)
  {
    var ss := SongFileInserts(rows).value;
    forall u: Tables ensures ExecAll(u, ss) == Exec(Exec(u, ss[0]), ss[1]) {
      ExecAllStep(u, ss, 0);
      ExecAllStep(u, ss, 1);
      assert ss[..0] == [] && ss[..2] == ss;
    }
  }

  // ---------------------------------------------------------------------
  // The NextSong filter
  // ---------------------------------------------------------------------

  /** Rows other than NextSong rows are discarded from every output: two
      files of equal length with the same NextSong rows at the same
      positions issue the same statements, whatever else they hold. */
  lemma OnlyNextSongRowsMatter(rs: seq<LogRecord>, rs': seq<LogRecord>, calendar: int -> Calendar,
                               songs: map<string, Song>, artists: map<string, Artist>,
                               fetch: set<Pair> -> Option<Pair>)
    requires |rs| == |rs'|
    requires forall i :: 0 <= i < |rs| ==> IsNextSong(rs[i]) == IsNextSong(rs'[i])
    requires forall i :: 0 <= i < |rs| && IsNextSong(rs[i]) ==> rs[i] == rs'[i]
    ensures Retained(rs) == Retained(rs')
    ensures LogFileInserts(rs, calendar, songs, artists, fetch) == LogFileInserts(rs', calendar, songs, artists, fetch)
  {
    assert NextSongMask(rs) == NextSongMask(rs');
  }

  // ---------------------------------------------------------------------
  // Time rows: deduplicated on start_time, keeping the first
  // ---------------------------------------------------------------------

  /** Every key has a first occurrence at or before any of its positions. */
  lemma {:induction false} FirstOccurrence(keys: seq<int>, i: nat)
    requires i < |keys|
    ensures exists j :: 0 <= j <= i && keys[j] == keys[i] && KeepFirstMask(keys)[j]
    decreases i
  {
    if !KeepFirstMask(keys)[i] {
      var j :| 0 <= j < i && keys[j] == keys[i];
      FirstOccurrence(keys, j);
    }
  }

  /** The time rows are the rows at the first occurrence of each start_time
      among the retained rows, in the order of those occurrences; their
      start_times are pairwise distinct and cover every retained ts. */
  lemma TimeRowsKeepFirst(ret: seq<Indexed>, calendar: int -> Calendar)
    ensures var ps := TimeKept(ret); var rows := TimeRows(ret, calendar);
      && |rows| == |ps|
      && (forall k :: 0 <= k < |ps| ==> rows[k] == TimeRow(ret[ps[k]].record, calendar))
      && (forall k, l :: 0 <= k < l < |ps| ==> ps[k] < ps[l])
      && (forall k, j :: 0 <= k < |ps| && 0 <= j < ps[k] ==> ret[j].record.ts != ret[ps[k]].record.ts)
      && (forall i :: 0 <= i < |ret| && (forall j :: 0 <= j < i ==> ret[j].record.ts != ret[i].record.ts) ==> i in ps)
      && (forall k, l :: 0 <= k < l < |rows| ==> rows[k].startTime != rows[l].startTime)
      && (forall i :: 0 <= i < |ret| ==> exists k :: 0 <= k < |rows| && rows[k].startTime == ret[i].record.ts)
  {
    var keys := TsKeys(ret);
    var ps := TimeKept(ret);
    var rows := TimeRows(ret, calendar);
    PositionsIncreasing(KeepFirstMask(keys));
    forall k, j | 0 <= k < |ps| && 0 <= j < ps[k]
      ensures ret[j].record.ts != ret[ps[k]].record.ts
    {
      assert KeepFirstMask(keys)[ps[k]];
      assert keys[j] != keys[ps[k]];
    }
    forall i | 0 <= i < |ret| && (forall j :: 0 <= j < i ==> ret[j].record.ts != ret[i].record.ts)
      ensures i in ps
    {
      assert forall j :: 0 <= j < i ==> keys[j] != keys[i];
      PositionsCover(KeepFirstMask(keys), i);
    }
    forall i | 0 <= i < |ret|
      ensures exists k :: 0 <= k < |rows| && rows[k].startTime == ret[i].record.ts
    {
      FirstOccurrence(keys, i);
      var j :| 0 <= j <= i && keys[j] == keys[i] && KeepFirstMask(keys)[j];
      PositionsCover(KeepFirstMask(keys), j);
      var k :| 0 <= k < |ps| && ps[k] == j;
      assert rows[k].startTime == ret[i].record.ts;
    }
  }

  // ---------------------------------------------------------------------
  // User rows: deduplicated on user_id, keeping the last
  // ---------------------------------------------------------------------

  /** Every key has a last occurrence at or after any of its positions. */
  lemma {:induction false} LastOccurrence(keys: seq<int>, i: nat)
    requires i < |keys|
    ensures exists j :: i <= j < |keys| && keys[j] == keys[i] && KeepLastMask(keys)[j]
    decreases |keys| - i
  {
    if !KeepLastMask(keys)[i] {
      var j :| i < j < |keys| && keys[j] == keys[i];
      LastOccurrence(keys, j);
    }
  }

  /** A retained row with no later row for the same user. */
  predicate IsLastForUser(ret: seq<Indexed>, i: nat)
    requires i < |ret|
  {
    forall j :: i < j < |ret| ==> ret[j].record.userId != ret[i].record.userId
  }

  /** The rows kept are exactly the last rows of their users. */
  lemma UserKeptIffLast(ret: seq<Indexed>)
    ensures var ps := UserKept(ret);
      && (forall k :: 0 <= k < |ps| ==> IsLastForUser(ret, ps[k]))
      && (forall i :: 0 <= i < |ret| && IsLastForUser(ret, i) ==> i in ps)
  {
    var keys := UserKeys(ret);
    var ps := UserKept(ret);
    forall k | 0 <= k < |ps|
      ensures IsLastForUser(ret, ps[k])
    {
      assert KeepLastMask(keys)[ps[k]];
      assert forall j :: ps[k] < j < |ret| ==> keys[j] != keys[ps[k]];
    }
    forall i | 0 <= i < |ret| && IsLastForUser(ret, i)
      ensures i in ps
    {
      assert forall j :: i < j < |ret| ==> keys[j] != keys[i];
      PositionsCover(KeepLastMask(keys), i);
    }
  }

  /** The user_ids of the user rows are pairwise distinct and cover every
      retained user. */
  lemma UserRowsOnePerUser(ret: seq<Indexed>)
    ensures var rows := UserRows(ret);
      && (forall k, l :: 0 <= k < l < |rows| ==> rows[k].userId != rows[l].userId)
      && (forall i :: 0 <= i < |ret| ==> exists k :: 0 <= k < |rows| && rows[k].userId == ret[i].record.userId)
  {
    var keys := UserKeys(ret);
    var ps := UserKept(ret);
    var rows := UserRows(ret);
    UserKeptIffLast(ret);
    PositionsIncreasing(KeepLastMask(keys));
    forall k, l | 0 <= k < l < |rows|
      ensures rows[k].userId != rows[l].userId
    {
      assert IsLastForUser(ret, ps[k]);
      assert ps[k] < ps[l];
    }
    forall i | 0 <= i < |ret|
      ensures exists k :: 0 <= k < |rows| && rows[k].userId == ret[i].record.userId
    {
      LastOccurrence(keys, i);
      var j :| i <= j < |keys| && keys[j] == keys[i] && KeepLastMask(keys)[j];
      PositionsCover(KeepLastMask(keys), j);
      var k :| 0 <= k < |ps| && ps[k] == j;
      assert rows[k].userId == ret[i].record.userId;
    }
  }

  /** The user rows are the rows at the last occurrence of each user_id
      among the retained rows, in the order of those occurrences, with all
      five fields, level included, of that last row; their user_ids are
      pairwise distinct and cover every retained user. */
  lemma UserRowsKeepLast(ret: seq<Indexed>)
    ensures var ps := UserKept(ret); var rows := UserRows(ret);
      && |rows| == |ps|
      && (forall k :: 0 <= k < |ps| ==> rows[k] == UserRow(ret[ps[k]].record) && IsLastForUser(ret, ps[k]))
      && (forall k, l :: 0 <= k < l < |ps| ==> ps[k] < ps[l])
      && (forall i :: 0 <= i < |ret| && IsLastForUser(ret, i) ==> i in ps)
      && (forall k, l :: 0 <= k < l < |rows| ==> rows[k].userId != rows[l].userId)
      && (forall i :: 0 <= i < |ret| ==> exists k :: 0 <= k < |rows| && rows[k].userId == ret[i].record.userId)
  {
    UserKeptIffLast(ret);
    UserRowsOnePerUser(ret);
    PositionsIncreasing(KeepLastMask(UserKeys(ret)));
  }

  // ---------------------------------------------------------------------
  // Songplays
  // ---------------------------------------------------------------------

  /** The songplay carries the event fields of the log row. */
  predicate SameEvent(p: Songplay, r: LogRecord) {
    && p.startTime == r.ts && p.userId == r.userId && p.level == r.level
    && p.sessionId == r.sessionId && p.location == r.location && p.userAgent == r.userAgent
  }

  /** One songplay per retained row, in file order, whose songplay_id is the
      row's index in the whole file, not its rank among the retained rows:
      the ids are exactly the indices of the NextSong rows. */
  lemma SongplaysOnePerRetainedRow(rs: seq<LogRecord>, songs: map<string, Song>, artists: map<string, Artist>,
                                   fetch: set<Pair> -> Option<Pair>)
    ensures var ret := Retained(rs); var plays := SongplayRows(ret, songs, artists, fetch);
      && |plays| == |ret|
      && (forall k :: 0 <= k < |plays| ==>
            && plays[k].songplayId == ret[k].index
            && 0 <= plays[k].songplayId < |rs|
            && IsNextSong(rs[plays[k].songplayId])
            && SameEvent(plays[k], rs[plays[k].songplayId]))
      && (forall k, l :: 0 <= k < l < |plays| ==> plays[k].songplayId < plays[l].songplayId)
      && (forall i :: 0 <= i < |rs| && IsNextSong(rs[i]) ==>
            exists k :: 0 <= k < |plays| && plays[k].songplayId == i)
  {
    var ret := Retained(rs);
    var plays := SongplayRows(ret, songs, artists, fetch);
    RetainedIncreasing(rs);
    forall i | 0 <= i < |rs| && IsNextSong(rs[i])
      ensures exists k :: 0 <= k < |plays| && plays[k].songplayId == i
    {
      RetainedCovers(rs, i);
      var k :| 0 <= k < |ret| && ret[k].index == i;
      assert plays[k].songplayId == i;
    }
  }

  /** The datastore's `fetchone()` returns None exactly on an empty result,
      and otherwise one of its rows. */
  ghost predicate FetchesOneRow(fetch: set<Pair> -> Option<Pair>) {
    forall found :: (fetch(found).None? <==> found == {}) && (fetch(found).Some? ==> fetch(found).value in found)
  }

  /** Song and artist ids of a songplay are both None exactly when no song
      joined with its artist matches the row's title, artist name and
      duration; otherwise both come from one matching (song, artist) pair. */
  lemma LookupNullOrMatchingPair(songs: map<string, Song>, artists: map<string, Artist>, x: Indexed,
                                 fetch: set<Pair> -> Option<Pair>)
    requires FetchesOneRow(fetch)
    ensures var p := SongplayRow(x, Lookup(songs, artists, x.record, fetch)); var r := x.record;
      && (p.songId == Null <==> p.artistId == Null)
      && (p.songId == Null <==> forall s :: s in songs ==> !Matches(songs, artists, s, r.song, r.artist, r.length))
      && (p.songId != Null ==>
            && p.songId.Str? && p.artistId.Str?
            && p.songId.s in songs && p.artistId.s in artists
            && songs[p.songId.s].artistId == p.artistId.s
            && SqlEquals(songs[p.songId.s].title, r.song)
            && SqlEquals(artists[p.artistId.s].name, r.artist)
            && SqlEquals(songs[p.songId.s].duration, r.length))
  {
    var found := SongSelect(songs, artists, x.record.song, x.record.artist, x.record.length);
    assert (fetch(found).None? <==> found == {}) && (fetch(found).Some? ==> fetch(found).value in found);
  }

  // ---------------------------------------------------------------------
  // The statements of a log file
  // ---------------------------------------------------------------------

  /** `ss` is `nt` time inserts, then one user insert per row of `users`,
      then one songplay insert per row of `plays`. */
  ghost predicate Layout(ss: seq<Insert>, nt: nat, users: seq<User>, plays: seq<Songplay>) {
    && |ss| == nt + |users| + |plays|
    && (forall i :: 0 <= i < nt ==> ss[i].TimeInsert?)
    && (forall i :: 0 <= i < |users| ==> ss[nt + i] == UserInsert(users[i]))
    && (forall i :: 0 <= i < |plays| ==> ss[nt + |users| + i] == SongplayInsert(plays[i]))
  }

  lemma LogFileLayout(rs: seq<LogRecord>, calendar: int -> Calendar,
                      songs: map<string, Song>, artists: map<string, Artist>,
                      fetch: set<Pair> -> Option<Pair>)
    ensures var ret := Retained(rs);
      Layout(LogFileInserts(rs, calendar, songs, artists, fetch), |TimeRows(ret, calendar)|,
             UserRows(ret), SongplayRows(ret, songs, artists, fetch))
  {
  }

  /** The order in which a file's statements are issued, by table. */
  function Phase(s: Insert): nat {
    match s
    case SongInsert(_) => 0
    case ArtistInsert(_) => 1
    case TimeInsert(_) => 2
    case UserInsert(_) => 3
    case SongplayInsert(_) => 4
  }

  /** In a layout, time inserts come first, then user inserts, then
      songplay inserts, and nothing else. */
  lemma LayoutPhases(ss: seq<Insert>, nt: nat, users: seq<User>, plays: seq<Songplay>)
    requires Layout(ss, nt, users, plays)
    ensures forall i :: 0 <= i < |ss| ==>
      Phase(ss[i]) == if i < nt then 2 else if i < nt + |users| then 3 else 4
  {
    forall i | 0 <= i < |ss|
      ensures Phase(ss[i]) == if i < nt then 2 else if i < nt + |users| then 3 else 4
    {
      if i < nt {
      } else if i < nt + |users| {
        assert ss[i] == UserInsert(users[i - nt]);
      } else {
        assert ss[i] == SongplayInsert(plays[i - nt - |users|]);
      }
    }
  }

  /** A log file issues all its time inserts, then all its user inserts,
      then its songplay inserts, exactly one per retained row; it never
      writes songs or artists. */
  lemma LogFileStatementOrder(rs: seq<LogRecord>, calendar: int -> Calendar,
                              songs: map<string, Song>, artists: map<string, Artist>,
                              fetch: set<Pair> -> Option<Pair>)
    ensures var ss := LogFileInserts(rs, calendar, songs, artists, fetch); var ret := Retained(rs);
      var nt := |TimeRows(ret, calendar)|; var nu := |UserRows(ret)|;
      && |ss| == nt + nu + |ret|
      && (forall i :: 0 <= i < |ss| ==> 2 <= Phase(ss[i]))
      && (forall i :: 0 <= i < |ss| ==> (ss[i].TimeInsert? <==> i < nt))
      && (forall i :: 0 <= i < |ss| ==> (ss[i].SongplayInsert? <==> nt + nu <= i))
      && (forall i, j :: 0 <= i < j < |ss| ==> Phase(ss[i]) <= Phase(ss[j]))
  {
    var ret := Retained(rs);
    LogFileLayout(rs, calendar, songs, artists, fetch);
    LayoutPhases(LogFileInserts(rs, calendar, songs, artists, fetch), |TimeRows(ret, calendar)|,
                 UserRows(ret), SongplayRows(ret, songs, artists, fetch));
  }

  // ---------------------------------------------------------------------
  // The tables after a log file
  // ---------------------------------------------------------------------

  /** In a layout whose user rows have pairwise distinct user_ids, each
      user row decides its user's level; a new user is that row. */
  lemma LayoutUsers(t: Tables, ss: seq<Insert>, nt: nat, users: seq<User>, plays: seq<Songplay>, a: nat)
    requires Layout(ss, nt, users, plays) && a < |users|
    requires forall k, l :: 0 <= k < l < |users| ==> users[k].userId != users[l].userId
    ensures var r := ExecAll(t, ss); var id := users[a].userId;
      && id in r.users && r.users[id].level == users[a].level
      && (id !in t.users ==> r.users[id] == users[a])
      && (id in t.users ==> SameIdentity(r.users[id], t.users[id]))
  {
    assert ss[nt + a] == UserInsert(users[a]);
    forall j | 0 <= j < |ss| && j != nt + a
      ensures ss[j].UserInsert? ==> ss[j].user.userId != users[a].userId
    {
      if j < nt {
        assert ss[j].TimeInsert?;
      } else if j < nt + |users| {
        assert ss[j] == UserInsert(users[j - nt]);
      } else {
        assert ss[j] == SongplayInsert(plays[j - nt - |users|]);
      }
    }
    OnlyUserInsertForKey(t, ss, nt + a);
  }

  /** In a layout whose songplay_ids strictly increase, every songplay
      whose id was free is stored under it, and every new id is the id of
      one of the songplays. */
  lemma LayoutSongplays(t: Tables, ss: seq<Insert>, nt: nat, users: seq<User>, plays: seq<Songplay>)
    requires Layout(ss, nt, users, plays)
    requires forall k, l :: 0 <= k < l < |plays| ==> plays[k].songplayId < plays[l].songplayId
    ensures var r := ExecAll(t, ss);
      && (forall k :: 0 <= k < |plays| && plays[k].songplayId !in t.songplays ==>
            plays[k].songplayId in r.songplays && r.songplays[plays[k].songplayId] == plays[k])
      && (forall id :: id in t.songplays ==> id in r.songplays && r.songplays[id] == t.songplays[id])
      && (forall id :: id in r.songplays && id !in t.songplays ==>
            exists k :: 0 <= k < |plays| && plays[k].songplayId == id)
  {
    ExecAllWriteOnce(t, ss);
    var n := nt + |users|;
    var r := ExecAll(t, ss);
    forall j | 0 <= j < n
      ensures !ss[j].SongplayInsert?
    {
      if j < nt {
        assert ss[j].TimeInsert?;
      } else {
        assert ss[j] == UserInsert(users[j - nt]);
      }
    }
    forall k | 0 <= k < |plays| && plays[k].songplayId !in t.songplays
      ensures plays[k].songplayId in r.songplays && r.songplays[plays[k].songplayId] == plays[k]
    {
      assert ss[n + k] == SongplayInsert(plays[k]);
      forall j | 0 <= j < n + k
        ensures ss[j].SongplayInsert? ==> ss[j].songplay.songplayId != plays[k].songplayId
      {
        if n <= j {
          assert ss[j] == SongplayInsert(plays[j - n]);
        }
      }
      SongplayFirstWins(t, ss, n + k);
    }
    forall id | id in r.songplays && id !in t.songplays
      ensures exists k :: 0 <= k < |plays| && plays[k].songplayId == id
    {
      SongplayKeysFrom(t, ss, id);
      var j :| 0 <= j < |ss| && ss[j].SongplayInsert? && ss[j].songplay.songplayId == id;
      assert n <= j;
      assert ss[j] == SongplayInsert(plays[j - n]);
    }
  }

  /** The last NextSong row of a user is one of the user rows. */
  lemma LastPlayIsUserRow(rs: seq<LogRecord>, i: nat)
    requires i < |rs| && IsNextSong(rs[i])
    requires forall j :: i < j < |rs| && IsNextSong(rs[j]) ==> rs[j].userId != rs[i].userId
    ensures exists a :: 0 <= a < |UserRows(Retained(rs))| && UserRows(Retained(rs))[a] == UserRow(rs[i])
  {
    var ret := Retained(rs);
    RetainedCovers(rs, i);
    var k :| 0 <= k < |ret| && ret[k].index == i;
    RetainedIncreasing(rs);
    assert IsLastForUser(ret, k) by {
      forall j | k < j < |ret| ensures ret[j].record.userId != ret[k].record.userId {
        assert ret[j].index > i;
      }
    }
    UserKeptIffLast(ret);
    var a :| 0 <= a < |UserKept(ret)| && UserKept(ret)[a] == k;
    assert UserRows(ret)[a] == UserRow(rs[i]);
  }

  /** After a log file, a user's level is that of the file's last NextSong
      row for the user, from whatever tables the file started; a new user
      gets every field of that row, an existing one keeps its names and
      gender. */
  lemma LogFileUserLevels(t: Tables, rs: seq<LogRecord>, calendar: int -> Calendar,
                          songs: map<string, Song>, artists: map<string, Artist>,
                          fetch: set<Pair> -> Option<Pair>, i: nat)
    requires i < |rs| && IsNextSong(rs[i])
    requires forall j :: i < j < |rs| && IsNextSong(rs[j]) ==> rs[j].userId != rs[i].userId
    ensures var r := ExecAll(t, LogFileInserts(rs, calendar, songs, artists, fetch)); var id := rs[i].userId;
      && id in r.users && r.users[id].level == rs[i].level
      && (id !in t.users ==> r.users[id] == UserRow(rs[i]))
      && (id in t.users ==> SameIdentity(r.users[id], t.users[id]))
  {
    var ret := Retained(rs);
    var users := UserRows(ret);
    LastPlayIsUserRow(rs, i);
    var a :| 0 <= a < |users| && users[a] == UserRow(rs[i]);
    UserRowsOnePerUser(ret);
    LogFileLayout(rs, calendar, songs, artists, fetch);
    LayoutUsers(t, LogFileInserts(rs, calendar, songs, artists, fetch), |TimeRows(ret, calendar)|,
                users, SongplayRows(ret, songs, artists, fetch), a);
  }

  /** After a log file, every NextSong row whose index was not yet a
      songplay_id has its songplay under that id; a songplay_id already
      present keeps its old row, so the later event is dropped; and every
      new songplay_id is the index of a NextSong row of the file. */
  lemma LogFileSongplays(t: Tables, rs: seq<LogRecord>, calendar: int -> Calendar,
                         songs: map<string, Song>, artists: map<string, Artist>,
                         fetch: set<Pair> -> Option<Pair>)
    ensures var r := ExecAll(t, LogFileInserts(rs, calendar, songs, artists, fetch));
      && (forall i :: 0 <= i < |rs| && IsNextSong(rs[i]) && i !in t.songplays ==>
            i in r.songplays && r.songplays[i] == SongplayRow(Indexed(i, rs[i]), Lookup(songs, artists, rs[i], fetch)))
      && (forall id :: id in t.songplays ==> id in r.songplays && r.songplays[id] == t.songplays[id])
      && (forall id :: id in r.songplays && id !in t.songplays ==> 0 <= id < |rs| && IsNextSong(rs[id]))
  {
    var ret := Retained(rs);
    var plays := SongplayRows(ret, songs, artists, fetch);
    var ss := LogFileInserts(rs, calendar, songs, artists, fetch);
    var r := ExecAll(t, ss);
    SongplaysOnePerRetainedRow(rs, songs, artists, fetch);
    LogFileLayout(rs, calendar, songs, artists, fetch);
    LayoutSongplays(t, ss, |TimeRows(ret, calendar)|, UserRows(ret), plays);
    forall i | 0 <= i < |rs| && IsNextSong(rs[i]) && i !in t.songplays
      ensures i in r.songplays && r.songplays[i] == SongplayRow(Indexed(i, rs[i]), Lookup(songs, artists, rs[i], fetch))
    {
      var k :| 0 <= k < |plays| && plays[k].songplayId == i;
      assert ret[k] == Indexed(i, rs[i]);
    }
  }

  /** An empty log file raises at the NextSong filter: the run stops there
      and loads nothing more, like a song file without row 0. */
  lemma EmptyFileAbortsRun(t: Tables, files: seq<DataFile>, calendar: int -> Calendar,
                           fetch: set<Pair> -> Option<Pair>)
    requires files != [] && (files[0] == LogFile([]) || files[0] == SongFile([]))
    ensures LoadFiles(t, files, calendar, fetch) == (t, 0)
  {
    LoadFilesStops(t, files, calendar, fetch);
  }

  // ---------------------------------------------------------------------
  // Concrete runs
  // ---------------------------------------------------------------------

  function Event(page: string, ts: int, userId: int, level: string): LogRecord {
    LogRecord(Str(page), ts, userId, Str("Ann"), Str("Lee"), Str("F"), Str(level),
              Str("X"), Str("Y"), Int(180), Int(1), Null, Null)
  }

  /** A login row, then two NextSong rows for user 7 at ts 1000, first on
      the free level and then on the paid one. */
  function LoginThenTwoPlays(): seq<LogRecord> {
    [Event("Login", 900, 7, "free"), Event("NextSong", 1000, 7, "free"), Event("NextSong", 1000, 7, "paid")]
  }

  /** The login row is filtered out; the NextSong rows keep indices 1 and 2. */
  lemma LoginThenTwoPlaysRetained()
    ensures var rs := LoginThenTwoPlays(); Retained(rs) == [Indexed(1, rs[1]), Indexed(2, rs[2])]
  {
    var rs := LoginThenTwoPlays();
    var mask := NextSongMask(rs);
    assert mask == [false, true, true];
    assert mask[..2][..1] == [false];
    assert Positions([false]) == [];
    assert Positions(mask[..2]) == [1];
    assert Positions(mask) == [1, 2];
  }

  /** One time row, from the first of the two plays. */
  lemma LoginThenTwoPlaysTime(calendar: int -> Calendar)
    ensures var rs := LoginThenTwoPlays(); TimeRows(Retained(rs), calendar) == [TimeRow(rs[1], calendar)]
  {
    LoginThenTwoPlaysRetained();
    var ret := Retained(LoginThenTwoPlays());
    assert ret[0].record.ts == 1000 && ret[1].record.ts == 1000;
    assert TsKeys(ret)[0] == TsKeys(ret)[1];
    var first := KeepFirstMask(TsKeys(ret));
    assert !first[1];
    assert first == [true, false];
    assert first[..1] == [true];
    assert Positions([true]) == [0];
    assert TimeKept(ret) == [0];
  }

  /** One user row, that of the later play, with the paid level. */
  lemma LoginThenTwoPlaysUser()
    ensures var rs := LoginThenTwoPlays();
      UserRows(Retained(rs)) == [UserRow(rs[2])] && UserRows(Retained(rs))[0].level == Str("paid")
  {
    LoginThenTwoPlaysRetained();
    var ret := Retained(LoginThenTwoPlays());
    assert ret[0].record.userId == 7 && ret[1].record.userId == 7;
    assert UserKeys(ret)[0] == UserKeys(ret)[1];
    var last := KeepLastMask(UserKeys(ret));
    assert !last[0];
    assert last == [false, true];
    assert last[..1] == [false];
    assert Positions([false]) == [];
    assert UserKept(ret) == [1];
  }

  /** Two songplays, whose ids are 1 and 2, the rows' positions in the
      file, and not 0 and 1; each keeps the level of its own row. */
  lemma LoginThenTwoPlaysSongplays(songs: map<string, Song>, artists: map<string, Artist>,
                                   fetch: set<Pair> -> Option<Pair>)
    ensures var plays := SongplayRows(Retained(LoginThenTwoPlays()), songs, artists, fetch);
      && |plays| == 2
      && plays[0].songplayId == 1 && plays[0].level == Str("free")
      && plays[1].songplayId == 2 && plays[1].level == Str("paid")
  {
    LoginThenTwoPlaysRetained();
  }

  /** songplay_id restarts at 0 in every file: a second file whose first row
      is a NextSong row leaves the songplay of the first file's row 0 in
      place and its own event is dropped. */
  lemma SongplayIdsCollideAcrossFiles(t: Tables, a: LogRecord, b: LogRecord, calendar: int -> Calendar,
                                      fetch: set<Pair> -> Option<Pair>)
    requires IsNextSong(a) && IsNextSong(b)
    requires 0 !in t.songplays
    ensures var t1 := ExecAll(t, LogFileInserts([a], calendar, t.songs, t.artists, fetch));
      var t2 := ExecAll(t1, LogFileInserts([b], calendar, t1.songs, t1.artists, fetch));
      && 0 in t2.songplays
      && t2.songplays[0] == SongplayRow(Indexed(0, a), Lookup(t.songs, t.artists, a, fetch))
      && t2.songplays[0].level == a.level
  {
    var t1 := ExecAll(t, LogFileInserts([a], calendar, t.songs, t.artists, fetch));
    LogFileSongplays(t, [a], calendar, t.songs, t.artists, fetch);
    LogFileSongplays(t1, [b], calendar, t1.songs, t1.artists, fetch);
  }
}

/** The star schema of the Sparkify database and the meaning of the SQL the
    loader runs against it: five tables keyed by their primary keys, the five
    `INSERT ... ON CONFLICT` statements, the song lookup join and the order
    of the DDL query lists. */
module SqlQueries {
  import opened Values

  // ---------------------------------------------------------------------
  // Tables and the DDL query lists
  // ---------------------------------------------------------------------

  datatype Table = SongplayTable | UserTable | SongTable | ArtistTable | TimeTable

  /** A DDL statement; every drop is `IF EXISTS`, all but the songplays one
      also `CASCADE`. */
  datatype Ddl = Create(table: Table) | Drop(table: Table, cascade: bool)

  const CreateTableQueries: seq<Ddl> :=
    [Create(UserTable), Create(SongTable), Create(ArtistTable), Create(TimeTable), Create(SongplayTable)]

  const DropTableQueries: seq<Ddl> :=
    [Drop(SongplayTable, false), Drop(UserTable, true), Drop(SongTable, true), Drop(ArtistTable, true), Drop(TimeTable, true)]

  /** The tables that `qs` acts on, in order. */
  function TableOrder(qs: seq<Ddl>): (ts: seq<Table>)
    ensures |ts| == |qs| && forall i :: 0 <= i < |qs| ==> ts[i] == qs[i].table
  {
    seq(|qs|, i requires 0 <= i < |qs| => qs[i].table)
  }

  /** Each table occurs exactly once in `qs`. */
  predicate EachTableOnce(qs: seq<Ddl>) {
    && (forall i, j :: 0 <= i < j < |qs| ==> qs[i].table != qs[j].table)
    && (forall t: Table :: t in TableOrder(qs))
  }

  /** The create list creates every table once, in the order users, songs,
      artists, time, songplays; the drop list drops every table once, in the
      order songplays, users, songs, artists, time, the fact table without
      CASCADE and every dimension table with it. */
  lemma QueryListsCoverEachTableOnce()
    ensures EachTableOnce(CreateTableQueries) && EachTableOnce(DropTableQueries)
    ensures TableOrder(CreateTableQueries) == [UserTable, SongTable, ArtistTable, TimeTable, SongplayTable]
    ensures TableOrder(DropTableQueries) == [SongplayTable, UserTable, SongTable, ArtistTable, TimeTable]
    ensures forall i :: 0 <= i < |CreateTableQueries| ==> CreateTableQueries[i].Create?
    ensures forall i :: 0 <= i < |DropTableQueries| ==> DropTableQueries[i].Drop?
    ensures CreateTableQueries[|CreateTableQueries| - 1] == Create(SongplayTable)
    ensures DropTableQueries[0] == Drop(SongplayTable, false)
    ensures forall i :: 1 <= i < |DropTableQueries| ==> DropTableQueries[i].cascade
  {
    assert TableOrder(CreateTableQueries) == [UserTable, SongTable, ArtistTable, TimeTable, SongplayTable];
    assert TableOrder(DropTableQueries) == [SongplayTable, UserTable, SongTable, ArtistTable, TimeTable];
    forall t: Table ensures t in TableOrder(CreateTableQueries) && t in TableOrder(DropTableQueries) {
      assert t.SongplayTable? || t.UserTable? || t.SongTable? || t.ArtistTable? || t.TimeTable?;
    }
  }

  // ---------------------------------------------------------------------
  // Rows
  // ---------------------------------------------------------------------

  datatype Song = Song(songId: string, title: Value, artistId: string, year: Value, duration: Value)

  datatype Artist = Artist(artistId: string, name: Value, location: Value, latitude: Value, longitude: Value)

  datatype Time = Time(startTime: int, hour: int, day: int, week: int, month: int, year: int, weekday: int)

  datatype User = User(userId: int, firstName: Value, lastName: Value, gender: Value, level: Value)

  datatype Songplay = Songplay(
    songplayId: int, startTime: int, userId: int, level: Value,
    songId: Value, artistId: Value, sessionId: Value, location: Value, userAgent: Value)

  /** The contents of the five tables, each a map from primary key to row. */
  datatype Tables = Tables(
    songs: map<string, Song>,
    artists: map<string, Artist>,
    time: map<int, Time>,
    users: map<int, User>,
    songplays: map<int, Songplay>)

  const EmptyTables := Tables(map[], map[], map[], map[], map[])

  /** Every row is stored under its own primary key. */
  ghost predicate WellKeyed(t: Tables) {
    && (forall k :: k in t.songs ==> t.songs[k].songId == k)
    && (forall k :: k in t.artists ==> t.artists[k].artistId == k)
    && (forall k :: k in t.time ==> t.time[k].startTime == k)
    && (forall k :: k in t.users ==> t.users[k].userId == k)
    && (forall k :: k in t.songplays ==> t.songplays[k].songplayId == k)
  }

  // ---------------------------------------------------------------------
  // INSERT statements
  // ---------------------------------------------------------------------

  /** One executed INSERT, with its parameters. */
  datatype Insert =
    | SongInsert(song: Song)
    | ArtistInsert(artist: Artist)
    | TimeInsert(time: Time)
    | UserInsert(user: User)
    | SongplayInsert(songplay: Songplay)

  /** Insert-or-ignore on a primary key: a row whose key is already present
      is dropped. */
  function InsertOrIgnore<K, V>(m: map<K, V>, k: K, v: V): (r: map<K, V>)
    ensures r.Keys == m.Keys + {k}
    ensures forall j :: j in m ==> r[j] == m[j]
    ensures k !in m ==> r[k] == v
  {
    if k in m then m else m[k := v]
  }

  /** The user upsert: a new user_id is inserted whole; an existing one has
      only its level replaced by the incoming level. */
  function UpsertLevel(m: map<int, User>, u: User): (r: map<int, User>)
    ensures r.Keys == m.Keys + {u.userId}
    ensures forall j :: j in m && j != u.userId ==> r[j] == m[j]
    ensures u.userId !in m ==> r[u.userId] == u
    ensures u.userId in m ==> r[u.userId] == m[u.userId].(level := u.level)
  {
    if u.userId in m then m[u.userId := m[u.userId].(level := u.level)] else m[u.userId := u]
  }

  /** The effect of one statement on the tables. */
  function Exec(t: Tables, s: Insert): Tables {
    match s
    case SongInsert(x) => t.(songs := InsertOrIgnore(t.songs, x.songId, x))
    case ArtistInsert(x) => t.(artists := InsertOrIgnore(t.artists, x.artistId, x))
    case TimeInsert(x) => t.(time := InsertOrIgnore(t.time, x.startTime, x))
    case UserInsert(x) => t.(users := UpsertLevel(t.users, x))
    case SongplayInsert(x) => t.(songplays := InsertOrIgnore(t.songplays, x.songplayId, x))
  }

  // ExecAll and ExecLast are one recursion split in two so that the solver
  // unfolds a single call only one level: ExecAll alone never exposes Exec.

  /** The effect of a sequence of statements, executed in order. */
  function ExecAll(t: Tables, ss: seq<Insert>): Tables
    decreases |ss|, 1
  {
    if ss == [] then t else ExecLast(t, ss)
  }

  /** A non-empty sequence of statements: all but the last, then the last. */
  function ExecLast(t: Tables, ss: seq<Insert>): Tables
    requires ss != []
    decreases |ss|, 0
  {
    Exec(ExecAll(t, ss[..|ss| - 1]), ss[|ss| - 1])
  }

  /** A non-empty sequence runs all but its last statement, then the last. */
  lemma ExecAllLast(t: Tables, ss: seq<Insert>)
    requires ss != []
    ensures ExecAll(t, ss) == Exec(ExecAll(t, ss[..|ss| - 1]), ss[|ss| - 1])
  {
  }

  lemma ExecAllStep(t: Tables, ss: seq<Insert>, i: nat)
    requires i < |ss|
    ensures ExecAll(t, ss[..i + 1]) == Exec(ExecAll(t, ss[..i]), ss[i])
  {
    assert ss[..i + 1][..i] == ss[..i];
  }

  /** Running two batches one after the other is running their
      concatenation. */
  lemma {:induction false} ExecAllAppend(t: Tables, a: seq<Insert>, b: seq<Insert>)
    ensures ExecAll(t, a + b) == ExecAll(ExecAll(t, a), b)
    decreases |b|
  {
    if b == [] {
      assert a + b == a;
    } else {
      var b' := b[..|b| - 1];
      assert (a + b)[..|a + b| - 1] == a + b';
      ExecAllAppend(t, a, b');
    }
  }

  /** Executing the same statement twice leaves the state of executing it
      once: insert-or-ignore finds the key, and the user upsert rewrites the
      level it has just written. */
  lemma ExecIdempotent(t: Tables, s: Insert)
    ensures Exec(Exec(t, s), s) == Exec(t, s)
  {
  }

  /** Every statement keeps each row under its own key. */
  lemma ExecKeepsWellKeyed(t: Tables, s: Insert)
    requires WellKeyed(t)
    ensures WellKeyed(Exec(t, s))
  {
  }

  lemma {:induction false} ExecAllKeepsWellKeyed(t: Tables, ss: seq<Insert>)
    requires WellKeyed(t)
    ensures WellKeyed(ExecAll(t, ss))
    decreases |ss|
  {
    if ss != [] {
      ExecAllKeepsWellKeyed(t, ss[..|ss| - 1]);
      ExecKeepsWellKeyed(ExecAll(t, ss[..|ss| - 1]), ss[|ss| - 1]);
    }
  }

  /** `u` is `v` with possibly another level: the write-once fields agree. */
  predicate SameIdentity(u: User, v: User) {
    u.userId == v.userId && u.firstName == v.firstName && u.lastName == v.lastName && u.gender == v.gender
  }

  /** `r` grows from `t` the way the inserts allow: no key disappears, songs,
      artists, time and songplays rows that existed are unchanged, and an
      existing user keeps every field but its level. */
  ghost predicate Extends(t: Tables, r: Tables) {
    && t.songs.Keys <= r.songs.Keys && t.artists.Keys <= r.artists.Keys
    && t.time.Keys <= r.time.Keys && t.users.Keys <= r.users.Keys
    && t.songplays.Keys <= r.songplays.Keys
    && (forall k :: k in t.songs ==> r.songs[k] == t.songs[k])
    && (forall k :: k in t.artists ==> r.artists[k] == t.artists[k])
    && (forall k :: k in t.time ==> r.time[k] == t.time[k])
    && (forall k :: k in t.songplays ==> r.songplays[k] == t.songplays[k])
    && (forall k :: k in t.users ==> SameIdentity(r.users[k], t.users[k]))
  }

  lemma ExtendsTransitive(t: Tables, u: Tables, r: Tables)
    requires Extends(t, u) && Extends(u, r)
    ensures Extends(t, r)
  {
  }

  lemma ExecExtends(t: Tables, s: Insert)
    ensures Extends(t, Exec(t, s))
  {
  }

  /** Write-once rows: after any sequence of inserts every row that existed
      is still there unchanged, except a user's level. */
  lemma {:induction false} ExecAllWriteOnce(t: Tables, ss: seq<Insert>)
    ensures Extends(t, ExecAll(t, ss))
    decreases |ss|
  {
    if ss != [] {
      var p := ss[..|ss| - 1];
      ExecAllWriteOnce(t, p);
      ExecAllLast(t, ss);
      ExecExtends(ExecAll(t, p), ss[|ss| - 1]);
      ExtendsTransitive(t, ExecAll(t, p), ExecAll(t, ss));
    }
  }

  /** The table a statement writes to. */
  function Target(s: Insert): Table {
    match s
    case SongInsert(_) => SongTable
    case ArtistInsert(_) => ArtistTable
    case TimeInsert(_) => TimeTable
    case UserInsert(_) => UserTable
    case SongplayInsert(_) => SongplayTable
  }

  /** Table `tbl` holds the same rows in `t` and `r`. */
  predicate SameTable(t: Tables, r: Tables, tbl: Table) {
    match tbl
    case SongTable => r.songs == t.songs
    case ArtistTable => r.artists == t.artists
    case TimeTable => r.time == t.time
    case UserTable => r.users == t.users
    case SongplayTable => r.songplays == t.songplays
  }

  /** A table that no statement of `ss` targets is left as it was. */
  lemma {:induction false} ExecAllOnlyTargetedTables(t: Tables, ss: seq<Insert>, tbl: Table)
    requires forall i :: 0 <= i < |ss| ==> Target(ss[i]) != tbl
    ensures SameTable(t, ExecAll(t, ss), tbl)
    decreases |ss|
  {
    if ss != [] {
      var p := ss[..|ss| - 1];
      assert forall i :: 0 <= i < |p| ==> p[i] == ss[i];
      ExecAllOnlyTargetedTables(t, p, tbl);
    }
  }

  /** Last write wins for `level`: after a sequence of inserts, a user's
      level is the one of the last user insert for that key. */
  lemma {:induction false} UserLevelLastWins(t: Tables, ss: seq<Insert>, i: nat)
    requires i < |ss| && ss[i].UserInsert?
    requires forall j :: i < j < |ss| && ss[j].UserInsert? ==> ss[j].user.userId != ss[i].user.userId
    ensures ss[i].user.userId in ExecAll(t, ss).users
    ensures ExecAll(t, ss).users[ss[i].user.userId].level == ss[i].user.level
    decreases |ss|
  {
    if i == |ss| - 1 {
    } else {
      var p := ss[..|ss| - 1];
      assert p[i] == ss[i];
      UserLevelLastWins(t, p, i);
    }
  }

  /** A user that did not exist before keeps the names and gender of the
      first insert for its key. */
  lemma {:induction false} UserIdentityFirstWins(t: Tables, ss: seq<Insert>, i: nat)
    requires i < |ss| && ss[i].UserInsert? && ss[i].user.userId !in t.users
    requires forall j :: 0 <= j < i && ss[j].UserInsert? ==> ss[j].user.userId != ss[i].user.userId
    ensures ss[i].user.userId in ExecAll(t, ss).users
    ensures SameIdentity(ExecAll(t, ss).users[ss[i].user.userId], ss[i].user)
    decreases |ss|
  {
    if i == |ss| - 1 {
      var p := ss[..i];
      assert forall j :: 0 <= j < |p| ==> p[j] == ss[j];
      NotYetInserted(t, p, ss[i].user.userId);
    } else {
      var p := ss[..|ss| - 1];
      assert forall j :: 0 <= j < |p| ==> p[j] == ss[j];
      UserIdentityFirstWins(t, p, i);
      ExecExtends(ExecAll(t, p), ss[|ss| - 1]);
    }
  }

  /** When `ss[i]` is the only user insert for its key, the key is present
      afterwards with that insert's level; a new user is exactly that row,
      an existing one keeps its names and gender. */
  lemma OnlyUserInsertForKey(t: Tables, ss: seq<Insert>, i: nat)
    requires i < |ss| && ss[i].UserInsert?
    requires forall j :: 0 <= j < |ss| && j != i ==> (ss[j].UserInsert? ==> ss[j].user.userId != ss[i].user.userId)
    ensures var r := ExecAll(t, ss); var id := ss[i].user.userId;
      && id in r.users && r.users[id].level == ss[i].user.level
      && (id !in t.users ==> r.users[id] == ss[i].user)
      && (id in t.users ==> SameIdentity(r.users[id], t.users[id]))
  {
    UserLevelLastWins(t, ss, i);
    ExecAllWriteOnce(t, ss);
    if ss[i].user.userId !in t.users {
      UserIdentityFirstWins(t, ss, i);
    }
  }

  /** A user key that no statement of `ss` inserts stays absent. */
  lemma {:induction false} NotYetInserted(t: Tables, ss: seq<Insert>, k: int)
    requires k !in t.users
    requires forall j :: 0 <= j < |ss| && ss[j].UserInsert? ==> ss[j].user.userId != k
    ensures k !in ExecAll(t, ss).users
    decreases |ss|
  {
    if ss != [] {
      var p := ss[..|ss| - 1];
      assert forall j :: 0 <= j < |p| ==> p[j] == ss[j];
      NotYetInserted(t, p, k);
    }
  }

  /** A songplay key that did not exist keeps the row of the first insert
      for that key: later ones are ignored. */
  lemma {:induction false} SongplayFirstWins(t: Tables, ss: seq<Insert>, i: nat)
    requires i < |ss| && ss[i].SongplayInsert? && ss[i].songplay.songplayId !in t.songplays
    requires forall j :: 0 <= j < i && ss[j].SongplayInsert? ==> ss[j].songplay.songplayId != ss[i].songplay.songplayId
    ensures ss[i].songplay.songplayId in ExecAll(t, ss).songplays
    ensures ExecAll(t, ss).songplays[ss[i].songplay.songplayId] == ss[i].songplay
    decreases |ss|
  {
    var p := ss[..|ss| - 1];
    assert forall j :: 0 <= j < |p| ==> p[j] == ss[j];
    if i == |ss| - 1 {
      SongplayNotYetInserted(t, p, ss[i].songplay.songplayId);
    } else {
      SongplayFirstWins(t, p, i);
      ExecExtends(ExecAll(t, p), ss[|ss| - 1]);
    }
  }

  /** A songplay key that no statement of `ss` inserts stays absent. */
  lemma {:induction false} SongplayNotYetInserted(t: Tables, ss: seq<Insert>, k: int)
    requires k !in t.songplays
    requires forall j :: 0 <= j < |ss| && ss[j].SongplayInsert? ==> ss[j].songplay.songplayId != k
    ensures k !in ExecAll(t, ss).songplays
    decreases |ss|
  {
    if ss != [] {
      var p := ss[..|ss| - 1];
      assert forall j :: 0 <= j < |p| ==> p[j] == ss[j];
      SongplayNotYetInserted(t, p, k);
    }
  }

  /** Every songplay key after a sequence of inserts was there before or
      is the key of one of the songplay inserts. */
  lemma {:induction false} SongplayKeysFrom(t: Tables, ss: seq<Insert>, k: int)
    requires k in ExecAll(t, ss).songplays && k !in t.songplays
    ensures exists j :: 0 <= j < |ss| && ss[j].SongplayInsert? && ss[j].songplay.songplayId == k
    decreases |ss|
  {
    var p := ss[..|ss| - 1];
    assert forall j :: 0 <= j < |p| ==> p[j] == ss[j];
    if k in ExecAll(t, p).songplays {
      SongplayKeysFrom(t, p, k);
    } else {
      assert ss[|ss| - 1].SongplayInsert? && ss[|ss| - 1].songplay.songplayId == k;
    }
  }

  // ---------------------------------------------------------------------
  // The song lookup
  // ---------------------------------------------------------------------

  /** `songs` row `s` joined with its artist matches the requested title,
      artist name and duration. */
  predicate Matches(songs: map<string, Song>, artists: map<string, Artist>, s: string,
                    title: Value, name: Value, duration: Value)
  {
    && s in songs
    && songs[s].artistId in artists
    && SqlEquals(songs[s].title, title)
    && SqlEquals(artists[songs[s].artistId].name, name)
    && SqlEquals(songs[s].duration, duration)
  }

  /** The song lookup: the (song_id, artist_id) pairs of the songs joined
      with their artist whose title, artist name and duration are SQL-equal
      to the three parameters. */
  function SongSelect(songs: map<string, Song>, artists: map<string, Artist>,
                      title: Value, name: Value, duration: Value): (r: set<(string, string)>)
    ensures forall p :: p in r ==>
      && p.0 in songs && p.1 in artists
      && songs[p.0].artistId == p.1
      && SqlEquals(songs[p.0].title, title)
      && SqlEquals(artists[p.1].name, name)
      && SqlEquals(songs[p.0].duration, duration)
    ensures forall s :: Matches(songs, artists, s, title, name, duration) ==> (s, songs[s].artistId) in r
    ensures r == {} <==> forall s :: s in songs ==> !Matches(songs, artists, s, title, name, duration)
  {
    set s | s in songs && Matches(songs, artists, s, title, name, duration) :: (s, songs[s].artistId)
  }
}

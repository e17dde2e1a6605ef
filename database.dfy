/** The database the loader writes to, seen through its cursor: five tables
    changed one statement at a time, and the state as of the last commit. */
module Database {
  import opened SqlQueries

  class Db {
    var songs: map<string, Song>
    var artists: map<string, Artist>
    var time: map<int, Time>
    var users: map<int, User>
    var songplays: map<int, Songplay>
    /** The tables as of the last commit: what survives an aborted run. */
    var committed: Tables

    /** The tables as the open transaction sees them. */
    function Current(): Tables
      reads this
    {
      Tables(songs, artists, time, users, songplays)
    }

    ghost predicate Valid()
      reads this
    {
      WellKeyed(Current()) && WellKeyed(committed)
    }

    /** A freshly created database: the five tables exist and are empty. */
    constructor ()
      ensures Valid()
      ensures Current() == EmptyTables && committed == EmptyTables
    {
      songs, artists, time, users, songplays := map[], map[], map[], map[], map[];
      committed := EmptyTables;
    }

    /** `song_table_insert`: insert or ignore on song_id. */
    method InsertSong(s: Song)
      requires Valid()
      modifies this
      ensures Valid() && committed == old(committed)
      ensures Current() == Exec(old(Current()), SongInsert(s))
    {
      if s.songId !in songs {
        songs := songs[s.songId := s];
      }
    }

    /** `artist_table_insert`: insert or ignore on artist_id. */
    method InsertArtist(a: Artist)
      requires Valid()
      modifies this
      ensures Valid() && committed == old(committed)
      ensures Current() == Exec(old(Current()), ArtistInsert(a))
    {
      if a.artistId !in artists {
        artists := artists[a.artistId := a];
      }
    }

    /** `time_table_insert`: insert or ignore on start_time. */
    method InsertTime(x: Time)
      requires Valid()
      modifies this
      ensures Valid() && committed == old(committed)
      ensures Current() == Exec(old(Current()), TimeInsert(x))
    {
      if x.startTime !in time {
        time := time[x.startTime := x];
      }
    }

    /** `user_table_insert`: insert, or update the level of an existing user_id. */
    method InsertUser(u: User)
      requires Valid()
      modifies this
      ensures Valid() && committed == old(committed)
      ensures Current() == Exec(old(Current()), UserInsert(u))
      ensures u.userId in old(users) ==> SameIdentity(users[u.userId], old(users)[u.userId])
      ensures users[u.userId].level == u.level
    {
      if u.userId in users {
        users := users[u.userId := users[u.userId].(level := u.level)];
      } else {
        users := users[u.userId := u];
      }
    }

    /** `songplay_table_insert`: insert or ignore on songplay_id. */
    method InsertSongplay(p: Songplay)
      requires Valid()
      modifies this
      ensures Valid() && committed == old(committed)
      ensures Current() == Exec(old(Current()), SongplayInsert(p))
    {
      if p.songplayId !in songplays {
        songplays := songplays[p.songplayId := p];
      }
    }

    /** `conn.commit()`: the open transaction becomes the committed state. */
    method Commit()
      requires Valid()
      modifies this
      ensures Valid()
      ensures Current() == old(Current()) && committed == Current()
    {
      committed := Current();
    }
  }
}

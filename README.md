# Sparkify ETL, modelled in Dafny

The Sparkify loader reads two kinds of JSON-lines files and fills a star
schema in PostgreSQL:

- song files, whose row 0 gives one `songs` row and one `artists` row;
- activity-log files, whose `NextSong` rows give `time` rows, `users` rows
  and one `songplays` row per event.

Every row is written with an `INSERT ... ON CONFLICT` statement. Songs,
artists, time and songplays ignore a row whose primary key is already present.
Users update only `level` on a conflict. The driver applies the per-file
function to each file in list order and commits after each file.

The model has five modules:

- `Values` (values.dfy): cells as they travel from a parsed record to a SQL
  parameter. This covers NULL, integers, strings and float64 bit patterns
  with the exact number each finite pattern denotes, the NaN test, the
  NaN-to-None coercion and SQL equality. SQL equality never matches NULL and
  compares numbers by value, integer or float.
- `SqlQueries` (sql_queries.dfy): the five tables as maps keyed by primary
  key, and the DDL query lists. Each `INSERT` is a statement `Insert`, whose
  effect `Exec` is defined by insert-or-ignore or by the level upsert.
  `ExecAll` is a sequence of statements run in order. `SongSelect` is the
  song lookup as a set of result pairs. The lemmas cover write-once rows,
  last-wins levels, first-wins songplays, idempotence and keying.
- `Database` (database.dfy): the class `Db`, holding the five maps the cursor
  writes plus the state as of the last commit. It has one method per insert
  statement, each proved to act as `Exec`, and `Commit`.
- `Etl` (etl.py's logic, in etl.dfy), in two parts:
  - Pure functions from parsed records to rows: the row-0 projection and the
    artist coercion, the `NextSong` filter that keeps the pre-filter index,
    the keep-first time deduplication, the keep-last user deduplication and
    the songplay rows with the lookup.
  - Methods on `Db` that issue the inserts in the source's loops: per file,
    and in `ProcessData` over the file list with a commit after each file.
    Each method is proved equal to `ExecAll` of the statements the pure
    functions produce. `ProcessData` is proved equal to `LoadFiles`, the run
    that stops at the first file that raises. `Run` stands for `main`: the
    song files, then the log files.
- `EtlProperties` (etl_properties.dfy): what these guarantee about the rows
  and about the tables after a file, including one concrete log file worked
  through.

`songplay_id` is not a database-generated id. The songplays table declares it
`SERIAL PRIMARY KEY` (sql_queries.py:13), but the loader passes the pandas
index of each row instead (etl.py:93, 104). The boolean filter at etl.py:63
keeps that index, so the id is the row's position in the whole file, counting
the rows the filter dropped. The ids are not a 0, 1, 2… numbering of the
retained rows, and they restart at 0 in every file. The model follows the
code:

- `SongplaysOnePerRetainedRow` states it in general.
- `LoginThenTwoPlaysSongplays` shows ids 1 and 2 for a file whose NextSong
  rows follow a login row.
- A later file's event with a colliding id is dropped by insert-or-ignore.
  `SongplayIdsCollideAcrossFiles` states this.

## Model

| member | source | states |
|---|---|---|
| Values.NaNToNull | etl.py:42-45 | the result is never a NaN float; it is the input unchanged, or None when the input is a NaN float64 |
| Values.SqlEquals | sql_queries.py:86-87 | the `=` of the lookup's WHERE clause; its properties are in `Values.SqlEqualsFacts` |
| Values.SqlEqualsFacts | sql_queries.py:86-87 | for all values: SQL equality is symmetric and never holds for NULL; a number never matches a string, in either order; two integers match exactly when they are equal, two strings exactly when they are equal, and two numbers exactly when the numbers they denote are equal. Examples: the integer 180 matches the float 180.0, and 0.0 matches -0.0 |
| SqlQueries.QueryListsCoverEachTableOnce | sql_queries.py:92-105 | each list names every table exactly once. Creates run in the order users, songs, artists, time, songplays. Drops run in the order songplays, users, songs, artists, time, and every drop but the songplays one cascades |
| SqlQueries.InsertOrIgnore | sql_queries.py:60-80 | the key set gains the key; every existing row is unchanged; a new key gets exactly the given row, so an existing key leaves the table as it was |
| SqlQueries.UpsertLevel | sql_queries.py:51-58 | a new user_id stores the whole row; an existing one keeps every field but level, which becomes the incoming level; other users are untouched |
| SqlQueries.Exec | sql_queries.py:43-80 | the effect of one insert statement; its properties are in `InsertOrIgnore`, `UpsertLevel`, `ExecIdempotent` and `ExecKeepsWellKeyed` |
| SqlQueries.ExecAll | sql_queries.py:43-80 | the effect of a sequence of statements run in order; its properties are in `ExecAllAppend`, `ExecAllWriteOnce`, `ExecAllOnlyTargetedTables` and the last-wins and first-wins lemmas |
| SqlQueries.ExecAllAppend | etl.py:79-90 | running two batches of statements one after the other equals running their concatenation |
| SqlQueries.ExecIdempotent | sql_queries.py:43-80 | executing any insert statement twice leaves the same tables as executing it once |
| SqlQueries.ExecKeepsWellKeyed | sql_queries.py:12-37 | one statement keeps every row stored under its own primary key |
| SqlQueries.ExecAllKeepsWellKeyed | sql_queries.py:12-37 | any sequence of statements keeps every row under its own primary key: at most one row per key |
| SqlQueries.ExecAllWriteOnce | sql_queries.py:43-80 | after any sequence of inserts no key disappears; every song, artist, time and songplay row is unchanged; a user keeps id, names and gender |
| SqlQueries.ExecAllOnlyTargetedTables | sql_queries.py:43-80 | a table that no statement of the sequence targets holds the same rows afterwards |
| SqlQueries.UserLevelLastWins | sql_queries.py:51-58 | after a sequence of inserts, a user's level is that of the last user insert for its key |
| SqlQueries.UserIdentityFirstWins | sql_queries.py:51-58 | a user that did not exist keeps the names and gender of the first insert for its key |
| SqlQueries.OnlyUserInsertForKey | sql_queries.py:51-58 | with a single user insert for a key, the key is present with that level; a new user is exactly that row, an existing one keeps its identity |
| SqlQueries.NotYetInserted | sql_queries.py:51-58 | a user key that no statement inserts stays absent |
| SqlQueries.SongplayFirstWins | sql_queries.py:43-49 | a new songplay key holds the row of the first insert for that key; later ones are ignored |
| SqlQueries.SongplayNotYetInserted | sql_queries.py:43-49 | a songplay key that no statement inserts stays absent |
| SqlQueries.SongplayKeysFrom | sql_queries.py:43-49 | every new songplay key is the key of one of the songplay inserts |
| SqlQueries.SongSelect | sql_queries.py:84-88 | each result pair (s, a) has `songs[s].artist_id == a`, and title, artist name and duration SQL-equal to the parameters; every matching song is in the result; the result is empty exactly when no song matches |
| Database.Db.constructor | sql_queries.py:12-37 | a new database has the five tables, empty, and satisfies the keying invariant |
| Database.Db.InsertSong | sql_queries.py:60-65 | the tables become `Exec` of the song insert on the old tables; the committed state is unchanged |
| Database.Db.InsertArtist | sql_queries.py:67-72 | the tables become `Exec` of the artist insert; the committed state is unchanged |
| Database.Db.InsertTime | sql_queries.py:75-80 | the tables become `Exec` of the time insert; the committed state is unchanged |
| Database.Db.InsertUser | sql_queries.py:51-58 | the tables become `Exec` of the user insert; an existing user keeps its identity and the level becomes the new one |
| Database.Db.InsertSongplay | sql_queries.py:43-49 | the tables become `Exec` of the songplay insert; the committed state is unchanged |
| Database.Db.Commit | etl.py:141 | the open tables are unchanged and become the committed state |
| Etl.SongFileInserts | etl.py:22-46 | the statements of a song file; stated in `EtlProperties.SongFileFromRowZero` |
| Etl.Positions | etl.py:63 | every position returned is in range and true in the mask |
| Etl.PositionsCover | etl.py:63 | every true position of the mask is returned |
| Etl.PositionsIncreasing | etl.py:63 | the positions come in strictly ascending order |
| Etl.Retained | etl.py:63 | every retained row is a NextSong row and carries its index in the unfiltered file |
| Etl.RetainedCovers | etl.py:63 | every NextSong row of the file is retained |
| Etl.RetainedIncreasing | etl.py:63 | retained rows keep the file's order: their indices strictly increase |
| Etl.KeepFirstMask | etl.py:77 | the rows `drop_duplicates(keep="first")` keeps; stated in `EtlProperties.TimeRowsKeepFirst` |
| Etl.TimeRows | etl.py:66-77 | the deduplicated time frame; stated in `EtlProperties.TimeRowsKeepFirst` |
| Etl.KeepLastMask | etl.py:87 | the rows `drop_duplicates(keep="last")` keeps; stated in `EtlProperties.UserKeptIffLast` |
| Etl.UserRows | etl.py:83-87 | the deduplicated user frame; stated in `EtlProperties.UserRowsKeepLast` |
| Etl.Lookup | etl.py:95-96 | the song lookup, then `fetchone`; stated in `EtlProperties.LookupNullOrMatchingPair` |
| Etl.SongplayRow | etl.py:98-113 | the songplay parameters of a retained row; stated in `EtlProperties.SongplaysOnePerRetainedRow` and `LookupNullOrMatchingPair` |
| Etl.SongplayRows | etl.py:93-114 | one songplay per retained row; the result has one row per retained row, and the rest is stated in `EtlProperties.SongplaysOnePerRetainedRow` |
| Etl.LogFileInserts | etl.py:49-114 | the statements of a log file; stated in `EtlProperties.LogFileStatementOrder`, `LogFileUserLevels` and `LogFileSongplays` |
| Etl.FileInserts | etl.py:140 | the statements the per-file function issues (`process_song_file` from etl.py:25, `process_log_file` from etl.py:63); it raises exactly when the file has no rows. What the statements do is stated by `EtlProperties.EmptyFileAbortsRun`, `Etl.LoadOne` and the success clauses of `Etl.ProcessSongFile` and `Etl.ProcessLogFile` |
| Etl.LoadFiles | etl.py:139-142 | the run over a file list, stopping at the first file that raises; the count never exceeds the number of files, and the rest is stated in `LoadOne`, `LoadFilesSplit` and `LoadFilesAppend` |
| Etl.LoadOne | etl.py:139-141 | a run of one file leaves the tables its statements produce and counts 1, or leaves them unchanged and counts 0 when the file raises |
| Etl.LoadFilesSplit | etl.py:139-141 | the run from file i on is file i alone, then, unless it raised, the run of the files after it |
| Etl.LoadFilesNothingLoaded | etl.py:139-142 | a run in which no file loaded leaves the tables as they were |
| Etl.LoadFilesAppend | etl.py:151-152 | running one file list and then another is running their concatenation: if a file of the first list raises, the run ends there |
| Etl.ProcessSongFile | etl.py:10-46 | succeeds exactly when row 0 exists; the tables become `ExecAll` of the song insert then the artist insert; on failure nothing changes |
| Etl.InsertTimeRows | etl.py:79-80 | the tables become `ExecAll` of one time insert per row, in order; songs and artists are untouched |
| Etl.InsertUserRows | etl.py:89-90 | the tables become `ExecAll` of one user insert per row, in order; songs and artists are untouched |
| Etl.InsertSongplays | etl.py:93-114 | the tables become `ExecAll` of one songplay insert per retained row, each looked up against the songs and artists as they were on entry |
| Etl.ProcessLogFile | etl.py:49-114 | succeeds exactly when the file has a row. The tables then become `ExecAll` of the file's statements: time rows, then user rows, then songplays. An empty file raises at the filter and changes nothing |
| Etl.ProcessFile | etl.py:139-140 | processing a file is a one-file run: the tables and the count that `LoadFiles` gives for that file alone; a file that raises leaves the tables unchanged |
| Etl.ProcessData | etl.py:117-142 | the tables are those of `LoadFiles` over the list; success exactly when every file loaded; the committed state is the old one if no file loaded, else the current tables |
| Etl.Run | etl.py:145-154 | the song files, then the log files, leave the tables of `LoadFiles` over their concatenation; success exactly when every file of both lists loaded; the committed state is the old one if no file loaded, else the current tables |
| EtlProperties.SongFileFromRowZero | etl.py:22-46 | a song file fails exactly when it has no row 0. Otherwise it issues exactly a song insert and then an artist insert, both from row 0: the song fields pass in order unchanged, and each artist cell is NaN-coerced |
| EtlProperties.SongFileIdempotent | etl.py:24-46 | processing the same song file twice leaves the tables of processing it once |
| EtlProperties.OnlyNextSongRowsMatter | etl.py:63 | two files with the same NextSong rows at the same positions retain the same rows and issue the same statements |
| EtlProperties.FirstOccurrence | etl.py:77 | every key has a first occurrence at or before any of its positions |
| EtlProperties.TimeRowsKeepFirst | etl.py:66-77 | time rows come from the first retained row of each ts, in order. Each row's fields are that row's calendar, and start_times are pairwise distinct. Every retained ts has a row, and every first occurrence is kept |
| EtlProperties.LastOccurrence | etl.py:87 | every key has a last occurrence at or after any of its positions |
| EtlProperties.UserKeptIffLast | etl.py:83-87 | a retained row is kept as a user row exactly when no later retained row has its user_id |
| EtlProperties.UserRowsOnePerUser | etl.py:83-87 | the user rows' user_ids are pairwise distinct and cover every retained user |
| EtlProperties.UserRowsKeepLast | etl.py:83-87 | user rows are the last retained row of each user, in order, with all five fields, level included. Their ids are distinct and cover every user |
| EtlProperties.SongplaysOnePerRetainedRow | etl.py:93-104 | one songplay per retained row, in file order. Its songplay_id is the row's unfiltered index, and the ids strictly increase. It carries that row's event fields, and every NextSong index gets one |
| EtlProperties.LookupNullOrMatchingPair | etl.py:95-101 | song and artist ids are None together, and exactly when no song matches. Otherwise both come from one matching joined pair |
| EtlProperties.LogFileStatementOrder | etl.py:69-114 | a log file issues all time inserts, then all user inserts, then exactly one songplay insert per retained row, and never a song or artist insert |
| EtlProperties.LastPlayIsUserRow | etl.py:83-87 | the last NextSong row of a user is one of the user rows, with all its fields |
| EtlProperties.LogFileUserLevels | etl.py:82-90 | after a log file, a user's level is that of the user's last NextSong row. A new user gets that row whole; an existing user keeps names and gender |
| EtlProperties.LogFileSongplays | etl.py:92-114 | after a log file, each free NextSong index holds that row's songplay, an existing id keeps its old row, and every new id is a NextSong index of the file |
| EtlProperties.EmptyFileAbortsRun | etl.py:63 | a run whose first file is an empty log file, or a song file without row 0, loads nothing |
| EtlProperties.LoginThenTwoPlaysRetained | etl.py:63 | for a Login row then two NextSong rows, the NextSong rows are retained with indices 1 and 2 |
| EtlProperties.LoginThenTwoPlaysTime | etl.py:66-77 | the two plays at the same ts give one time row, from the first play |
| EtlProperties.LoginThenTwoPlaysUser | etl.py:83-87 | the two plays of user 7 give one user row, the later play's, with level paid |
| EtlProperties.LoginThenTwoPlaysSongplays | etl.py:93-114 | the two plays give songplay_ids 1 and 2, not 0 and 1, with levels free and paid |
| EtlProperties.SongplayIdsCollideAcrossFiles | etl.py:103-104 | a second log file whose row 0 is a NextSong row leaves the first file's songplay 0 in place: its own event is dropped |

## Left out

- create_tables.py is not part of this model: it creates the database and runs the DDL lists. The constructor of `Db` stands for its result, and the lists themselves are modelled.
- The connection, the cursor and `register_adapter`: the cursor's effect is the `Db` methods.
- Transaction rollback: an aborted run is modelled by the `committed` snapshot. The open tables are not rolled back.
- `main` (etl.py:145-154) opens the connection, runs `process_data` over data/song_data, then over data/log_data, and closes the connection. `Run` stands for the two calls, in that order: a raise in the first call ends the program before the second. The connection is not modelled.
- Progress printing (etl.py:136, 142) produces output only.
- File discovery with `os.walk` and `glob`: the file list is an input, in the order the walk yields it.
- JSON parsing with `pd.read_json`: files arrive as parsed rows, and a song or log file is told apart by its kind.
- Calendar decomposition with `pd.to_datetime` and `.dt.*`: it is a parameter `calendar` from ts to (hour, day, week, month, year, weekday). The library date arithmetic, which reads the millisecond ts as nanoseconds, is not modelled.
- The choice `fetchone` makes among several lookup results is the datastore's: it is a parameter `fetch`. `LookupNullOrMatchingPair` assumes only that it returns None on an empty result and one of the rows otherwise.
- Floating point: SQL equality compares the exact number a finite float denotes. For two floats, or an integer and a float both below 2^53 in magnitude, this agrees with PostgreSQL comparing the shortest decimal form the driver sends. A NaN or an infinity matches nothing. PostgreSQL's own handling of such a literal, and any rounding of `numeric` columns, is not modelled.
- Values.SqlEquals: an integer of magnitude 2^53 or more compared with a float is compared by exact value. The driver sends the float as its shortest decimal form (2.0**60 becomes `1.152921504606847e+18`), which PostgreSQL may find unequal to the integer the float denotes exactly, so the model can match where the database does not.
- SqlQueries.SongSelect: a number compared with a string never matches, and strings compare character by character. PostgreSQL's implicit casts and collation rules are not modelled.
- Column types and their checks by PostgreSQL are not modelled. Primary-key fields are typed: string song and artist ids, integer ts, user_id and songplay_id. NULL keys and type errors therefore cannot arise.
- The errors modelled are a song file without row 0 and an empty log file, whose frame has no `page` column. Other errors are not modelled: a malformed file, a missing column in a non-empty file, a database error.

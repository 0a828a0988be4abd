# Sparkify event-log ETL, modelled in Dafny

The Sparkify script is a single-pass batch job in two stages.

1. The flattener picks the event CSV files and concatenates their data rows. Each file's header row is dropped. It then writes `event_datafile_new.csv`: first a fixed 11-name header row, then one row for each raw row whose artist field is not empty. That row is the raw row projected onto raw columns 0, 2, 3, 4, 5, 6, 7, 8, 12, 13 and 16.
2. The table loader reads the combined file three times, once per query table (`song_info_by_session`, `song_info_by_user`, `user_info_by_song`). Each pass skips the header line and executes one parameterised INSERT per line. The INSERT's values are picked from fixed positions of the combined row, and some are converted with `int(...)` or `float(...)`.

The model has four modules:

- `Rows` (`rows.dfy`): a CSV row is `seq<string>`; plus an `Option` type.
- `Flattener` (`flattener.dfy`): choosing the file list, the concatenation loop, the projection and the write loop. Each loop is a method with loop invariants. The walk loop is proved to keep the last listing. The concatenation and write loops are proved against recursive specification functions (`FullDataRows`, `KeptIndices`, `CombinedRows`).
- `TableLoader` (`loader.dfy`): the three INSERT value tuples as datatypes and the function that builds each one from a combined line. It also holds one generic load pass, `LoadTable`, used for all three tables.
- `Script` (`script.dfy`): the script run top to bottom (`Run`), with the load passes factored into `LoadTables` and `LoadStage`. Every stage either completes or raises, and a raise ends the run.

Inputs and outputs are values, not I/O:

- The os.walk directory listings are a `seq<seq<Path>>`.
- A file's CSV rows are given by a function `Path -> seq<Row>`.
- Python's `int(...)` and `float(...)` are given as a parameter `Conversions<F>`: two partial functions, string to `Option<int>` and string to `Option<F>`. `F` stands for Python's float.
- The rows written to the combined file and the INSERTs executed are returned as sequences, in order.

Failures the source does not catch are modelled as error outcomes, not as preconditions:

- `next(csvreader)` on an empty event file raises StopIteration (`MissingHeader`).
- A row with no fields, or a kept row with fewer than 17 fields, raises IndexError in the write loop. The result is the header plus what had been written up to that row.
- A combined line that is too short, or whose `int`/`float` conversion fails, stops the load pass at that line.

Points where the model makes the source's behaviour explicit:

- `file_path_list` is reassigned on each os.walk iteration, so only the listing of the last directory visited is processed. It is not the union of all listings. If the walk visits nothing, the name is never bound.
- Table 3's INSERT reads only fields and conversions that table 2's INSERT already read successfully. So once the second load pass has finished, the third cannot stop (`Script.ListenerAfterUser`).
- The INSERT for `song_info_by_user` spells its column `itemInsession`. Unquoted CQL identifiers are case-insensitive, so this is the `itemInSession` column; the model's column list uses the header's spelling.

## Model

| member | source | states |
|---|---|---|
| `Flattener.SelectFileList` | SparkifyMusic_Project.py:33-36 | The file list after the walk loop is the last directory's listing, not a union. It is absent exactly when the walk yields no directory. |
| `Flattener.FullDataRows` | SparkifyMusic_Project.py:46-60 | The concatenated data-row list has as many rows as all files have rows after their header. |
| `Flattener.FullDataRowsAt` | SparkifyMusic_Project.py:49-60 | Row j ≥ 1 of file i lies in the concatenation right after the data rows of files 0..i-1. So files keep their order, rows keep their order within a file, and no header row is included. |
| `Flattener.ConcatenateFiles` | SparkifyMusic_Project.py:46-60 | The append loop succeeds iff every file has a header row, and then builds exactly `FullDataRows(files)`. Otherwise it stops at the first empty file, holding the data rows of the files before it. |
| `Flattener.Project` | SparkifyMusic_Project.py:73 | The written tuple has 11 fields, one per header name. Field c is raw field `[0,2,3,4,5,6,7,8,12,13,16][c]`. |
| `Flattener.KeptIndices` | SparkifyMusic_Project.py:70-72 | A raw row produces output iff its artist field is non-empty, in both directions. The kept positions are strictly increasing. Their number is the row count minus the count of empty-artist rows. |
| `Flattener.CombinedRows` | SparkifyMusic_Project.py:70-73 | The write loop never produces more data rows than it reads. |
| `Flattener.CombinedRowsCount` | SparkifyMusic_Project.py:70-73 | There is exactly one output data row per raw row with a non-empty artist. |
| `Flattener.CombinedRowsAt` | SparkifyMusic_Project.py:70-73 | Output data row j is the projection of the j-th raw row with a non-empty artist, and that raw row has all 17 fields. |
| `Flattener.CombinedRowsAppend` | SparkifyMusic_Project.py:49-73 | Filtering and projecting the concatenation gives the same rows as doing it per part and concatenating the results. |
| `Flattener.WriteCombined` | SparkifyMusic_Project.py:67-73 | The write loop succeeds iff every row is readable (has field 0, and has 17 fields when kept). The file is then the header, once and first, followed by `CombinedRows(rows)`. On the first unreadable row it stops; the file holds the header plus the combined rows of the rows before it. |
| `TableLoader.SessionInsert` | SparkifyMusic_Project.py:153 | Table 1's values can be built from a line iff it has at least 10 fields and `int(line[8])`, `int(line[3])` and `float(line[5])` succeed. The values are those conversions plus `line[0]` and `line[9]`, read at the positions listed for the INSERT's columns. |
| `TableLoader.UserInsert` | SparkifyMusic_Project.py:201 | Table 2's values can be built iff the line has at least 11 fields and `int(line[10])`, `int(line[8])` and `int(line[3])` succeed. The values are those conversions plus `line[0]`, `line[9]`, `line[1]` and `line[4]`, read at the positions listed for the INSERT's columns. |
| `TableLoader.ListenerInsert` | SparkifyMusic_Project.py:251 | Table 3's values can be built iff the line has at least 11 fields and `int(line[10])` succeeds. The values are `line[9]`, that conversion, `line[1]` and `line[4]`, read at the positions listed for the INSERT's columns. |
| `TableLoader.SessionPositionsAligned` | SparkifyMusic_Project.py:149-153 | Table 1's INSERT reads combined positions (8,3,0,9,5). These carry the header names (sessionId, itemInSession, artist, song, length), and come from raw columns (12,4,0,13,6). |
| `TableLoader.UserPositionsAligned` | SparkifyMusic_Project.py:199-201 | Table 2's INSERT reads combined positions (10,8,3,0,9,1,4). These carry the names of its column list and come from raw columns (16,12,4,0,13,2,5). |
| `TableLoader.ListenerPositionsAligned` | SparkifyMusic_Project.py:249-251 | Table 3's INSERT reads combined positions (9,10,1,4). These carry the names (song, userId, firstName, lastName) and come from raw columns (13,16,2,5). |
| `TableLoader.SessionInsertFromRaw` | SparkifyMusic_Project.py:153 | Table 1's INSERT on a projected raw row takes sessionId = int(raw[12]), itemInSession = int(raw[4]), artist = raw[0], song = raw[13] and length = float(raw[6]). It fails exactly when one of those conversions fails. |
| `TableLoader.UserInsertFromRaw` | SparkifyMusic_Project.py:201 | Table 2's INSERT on a projected raw row takes int(raw[16]), int(raw[12]), int(raw[4]), raw[0], raw[13], raw[2] and raw[5]. It fails exactly when a conversion fails. |
| `TableLoader.ListenerInsertFromRaw` | SparkifyMusic_Project.py:251 | Table 3's INSERT on a projected raw row takes raw[13], int(raw[16]), raw[2] and raw[5]. It fails exactly when `int(raw[16])` fails. |
| `TableLoader.LoadTable` | SparkifyMusic_Project.py:145-153 | A load pass skips the header line and executes one INSERT per line, in file order. The m-th INSERT carries the values built from line m+1. The pass completes iff the file is non-empty and every line's values can be built. Otherwise it stops at the first line that fails, having executed the INSERTs of the lines before it. |
| `Script.ListenerAfterUser` | SparkifyMusic_Project.py:198-251 | Whenever table 2's INSERT values can be built from a line, table 3's can too. |
| `Script.LoadTables` | SparkifyMusic_Project.py:143-251 | The three passes run in order, and every INSERT executed carries the values of its line after the header. They all complete iff the file is non-empty and every data line yields all three INSERTs; then each table gets one INSERT per data line. Pass 1 stops iff the file is empty or some line lacks table 1 values: on an empty file with no INSERT, otherwise at the first such line, with the INSERTs of the lines before it; pass 2 never ran. Pass 2 stops iff pass 1 loaded every line and some line lacks table 2 values, at the first such line. Pass 3 never stops and ran only when both others completed. |
| `Script.CombinedFileLines` | SparkifyMusic_Project.py:145-148 | After the header line, the loaders read exactly the combined rows. Every line loads iff every kept raw row yields all three INSERTs. |
| `Script.LoadStage` | SparkifyMusic_Project.py:143-251 | Loading the file written from readable raw rows stops iff some kept raw row does not yield all three INSERTs. A stopped load names its pass and line. Table 1's pass stops iff some line lacks table 1 values, at the first such line, and table 2's pass then never ran. Otherwise table 2's pass stops at the first line without table 2 values, after table 1 received an INSERT for every line. The INSERTs carried are all those executed, and each matches its line. A completed load gave each table one INSERT per kept raw row, in order, built from that row's projection. |
| `Script.Run` | SparkifyMusic_Project.py:33-251 | Each outcome has an iff condition. No directory iff the walk yields none. A missing header iff some chosen file is empty; the outcome names the first one. An unreadable row iff all files have headers but some raw row is unreadable; the outcome names the first one and carries the partly written file, the header plus the combined rows before it. The load stops iff all raw rows are readable but some kept row does not yield all three INSERTs. It then carries the whole written file, the pass and first line that failed, and all INSERTs executed before it, as `Script.LoadStage` states. Otherwise the run completes: the file is `[HEADER] + CombinedRows(raw)` and each table received one INSERT per kept raw row, in order, built from that row's projection. |

## Left out

- Filesystem discovery (`os.getcwd`, `os.walk`, `glob`) is left out. The model receives the walk's listings as a sequence. `glob` also lists sub-directories, which `open` would reject; that is not modelled.
- Opening, reading and writing files is left out. A file's contents are a function from path to rows, and the written file is returned as a sequence of rows.
- Python's `csv` tokenising and the `QUOTE_ALL` / `skipinitialspace` dialect are not modelled, because they are library behaviour. Rows enter and leave as `seq<seq<string>>`. `Script.Run` hands the rows it wrote straight to the load passes, which assumes the csv writer/reader round trip returns them unchanged.
- The line count printed at lines 77-78 is left out. It counts physical lines and is print output only.
- The Cassandra cluster, session, keyspace and table DDL are left out, as are `SELECT ... ALLOW FILTERING`, `DROP TABLE` and `shutdown`. These are external database calls. A load pass is modelled as the sequence of INSERT value tuples it executes. Primary-key upsert semantics belong to Cassandra, so the tables are not modelled as maps.
- The queries and the pandas DataFrames built from their results are left out, because they are presentation only.
- How `int(...)` and `float(...)` parse strings is not modelled, because they are library functions. Both are abstract partial functions supplied by the caller, and floats are an abstract type parameter.
- `TableLoader.SessionInsert`, `TableLoader.UserInsert`, `TableLoader.ListenerInsert`: inside one INSERT tuple, Python raises either IndexError (the line is too short) or ValueError (a conversion fails). The model merges both into "this line cannot be loaded", which stops the pass. It does not record which exception was raised.
- Any exception raised by the database during an INSERT is left out, because it is an external call. This includes a failure on the client side while the driver serialises the values. The `int` columns (`sessionId`, `itemInSession`, `userId`) and the `float` column `length` are 32-bit in Cassandra. A value that `int(...)` or `float(...)` accepts but that does not fit makes `session.execute` raise, which stops that pass. The model's integers are unbounded, so it records such an INSERT as executed and may return `Completed`.

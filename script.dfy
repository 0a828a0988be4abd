/** The script run top to bottom: choose the event files, flatten them into
    `event_datafile_new.csv`, then run the three load passes over that file.
    Every stage either completes or raises, and a raise ends the run. */
module Script {
  import opened Rows
  import opened Flattener
  import opened TableLoader

  /** The load passes that can stop a run: table 3's pass cannot
      (ListenerAfterUser). */
  datatype LoadPass = SongInfoBySession | SongInfoByUser

  /** Where a run stopped, or what it produced when it completed. When a load
      pass stops, the INSERTs already executed stay in their tables: the run
      ends before the DROP statements. */
  datatype RunOutcome<F> =
    | NoEventDirectory                          // os.walk visited nothing: `file_path_list` is unbound
    | MissingHeader(file: nat)                  // `next(csvreader)` raised on this (empty) event file
    | UnreadableRow(row: nat, written: seq<Row>) // IndexError on this raw row; `written` is the combined file so far
    | LoadStopped(table: LoadPass, outcome: LoadOutcome, combined: seq<Row>,
                  sessionSongs: seq<SessionSong<F>>, userSessionSongs: seq<UserSessionSong>)
    | Completed(combined: seq<Row>, sessionSongs: seq<SessionSong<F>>,
                userSessionSongs: seq<UserSessionSong>, songListeners: seq<SongListener>)

  /** The rows of each chosen file, in list order. */
  function ReadAll(paths: seq<Path>, contents: Path -> seq<Row>): seq<seq<Row>> {
    seq(|paths|, k requires 0 <= k < |paths| => contents(paths[k]))
  }

  /** A combined line yields values for all three INSERTs. */
  predicate Insertable<F>(line: Row, conv: Conversions<F>) {
    SessionInsert(line, conv).Some? && UserInsert(line, conv).Some? && ListenerInsert(line, conv).Some?
  }

  /** Every kept raw row, projected, yields values for all three INSERTs. */
  predicate AllInsertable<F>(raw: seq<Row>, conv: Conversions<F>)
    requires AllReadable(raw)
  {
    forall j :: 0 <= j < |CombinedRows(raw)| ==> Insertable(CombinedRows(raw)[j], conv)
  }

  /** Every line after the header yields table 1's INSERT values. */
  predicate SessionLoads<F>(file: seq<Row>, conv: Conversions<F>) {
    forall m :: 1 <= m < |file| ==> SessionInsert(file[m], conv).Some?
  }

  /** Every line after the header yields table 2's INSERT values. */
  predicate UserLoads<F>(file: seq<Row>, conv: Conversions<F>) {
    forall m :: 1 <= m < |file| ==> UserInsert(file[m], conv).Some?
  }

  /** Whatever table 2's INSERT reads, table 3's reads too (line[10] with
      `int`, line[9], line[1], line[4]), so the third pass cannot stop once the
      second has loaded. */
  lemma ListenerAfterUser<F>(line: Row, conv: Conversions<F>)
    requires UserInsert(line, conv).Some?
    ensures ListenerInsert(line, conv).Some?
  {
  }

  /** SparkifyMusic_Project.py lines 143-251: the three load passes over the
      combined file, in order. Each INSERT executed carries the values of its
      line. Pass 1 stops on an empty file or at the first line without table 1
      values; pass 2 runs only after pass 1 loaded every line and stops at the
      first line without table 2 values; pass 3 cannot stop (ListenerAfterUser). */
  method LoadTables<F>(file: seq<Row>, conv: Conversions<F>)
    returns (sessionSongs: seq<SessionSong<F>>, userSessionSongs: seq<UserSessionSong>,
             songListeners: seq<SongListener>, stopped: Option<(LoadPass, LoadOutcome)>)
    ensures stopped.None? <==> file != [] && forall m :: 1 <= m < |file| ==> Insertable(file[m], conv)
    ensures forall m :: 0 <= m < |sessionSongs| ==>
      m + 1 < |file| && Some(sessionSongs[m]) == SessionInsert(file[m + 1], conv)
    ensures forall m :: 0 <= m < |userSessionSongs| ==>
      m + 1 < |file| && Some(userSessionSongs[m]) == UserInsert(file[m + 1], conv)
    ensures forall m :: 0 <= m < |songListeners| ==>
      m + 1 < |file| && Some(songListeners[m]) == ListenerInsert(file[m + 1], conv)
    ensures stopped.None? ==> |sessionSongs| == |userSessionSongs| == |songListeners| == |file| - 1
    ensures stopped.Some? ==> !stopped.value.1.Loaded? && songListeners == []
    ensures (stopped.Some? && stopped.value.0 == SongInfoBySession) <==> !(file != [] && SessionLoads(file, conv))
    ensures stopped.Some? && stopped.value.0 == SongInfoBySession ==>
      var outcome := stopped.value.1;
      userSessionSongs == [] &&
      (outcome.NoHeader? <==> file == []) &&
      (outcome.AbortedAt? ==>
        1 <= outcome.line < |file| && |sessionSongs| == outcome.line - 1 &&
        SessionInsert(file[outcome.line], conv).None?)
    ensures (stopped.Some? && stopped.value.0 == SongInfoByUser) <==>
      file != [] && SessionLoads(file, conv) && !UserLoads(file, conv)
    ensures stopped.Some? && stopped.value.0 == SongInfoByUser ==>
      var outcome := stopped.value.1;
      |sessionSongs| == |file| - 1 && outcome.AbortedAt? &&
      1 <= outcome.line < |file| && |userSessionSongs| == outcome.line - 1 &&
      UserInsert(file[outcome.line], conv).None?
  {
    userSessionSongs, songListeners := [], [];
    var o1, o2, o3;
    sessionSongs, o1 := LoadTable(file, line => SessionInsert(line, conv));
    if !o1.Loaded? {
      return sessionSongs, userSessionSongs, songListeners, Some((SongInfoBySession, o1));
    }
    userSessionSongs, o2 := LoadTable(file, line => UserInsert(line, conv));
    if !o2.Loaded? {
      return sessionSongs, userSessionSongs, songListeners, Some((SongInfoByUser, o2));
    }
    songListeners, o3 := LoadTable(file, line => ListenerInsert(line, conv));
    forall m | 1 <= m < |file| ensures ListenerInsert(file[m], conv).Some? {
      ListenerAfterUser(file[m], conv);
    }
    assert o3.Loaded?;
    stopped := None;
  }

  /** The load passes see, after the header line, exactly the combined rows. */
  lemma CombinedFileLines<F>(header: Row, raw: seq<Row>, conv: Conversions<F>)
    requires AllReadable(raw)
    ensures |[header] + CombinedRows(raw)| - 1 == |CombinedRows(raw)|
    ensures forall m :: 0 <= m < |CombinedRows(raw)| ==> ([header] + CombinedRows(raw))[m + 1] == CombinedRows(raw)[m]
    ensures (forall m :: 1 <= m < |[header] + CombinedRows(raw)| ==> Insertable(([header] + CombinedRows(raw))[m], conv))
            <==> AllInsertable(raw, conv)
  {
  }

  /** A stopped run's load passes: the combined file is the one written from
      `raw`. Table 1's pass stopped iff some line lacks table 1 values, at the
      first such line, and table 2's pass never ran; otherwise table 2's pass
      stopped at the first line without table 2 values, after table 1 loaded
      every line. The INSERTs carried are all those executed, each with the
      values of its line after the header. */
  ghost predicate StoppedAfter<F>(r: RunOutcome<F>, raw: seq<Row>, conv: Conversions<F>)
    requires r.LoadStopped? && AllReadable(raw)
  {
    r.combined == [HEADER] + CombinedRows(raw) &&
    r.outcome.AbortedAt? && 1 <= r.outcome.line < |r.combined| &&
    (r.table == SongInfoBySession <==> !SessionLoads(r.combined, conv)) &&
    (r.table == SongInfoBySession ==>
      |r.sessionSongs| == r.outcome.line - 1 && r.userSessionSongs == [] &&
      SessionInsert(r.combined[r.outcome.line], conv).None?) &&
    (r.table == SongInfoByUser ==>
      |r.sessionSongs| == |r.combined| - 1 && |r.userSessionSongs| == r.outcome.line - 1 &&
      UserInsert(r.combined[r.outcome.line], conv).None?) &&
    (forall m :: 0 <= m < |r.sessionSongs| ==>
      m + 1 < |r.combined| && Some(r.sessionSongs[m]) == SessionInsert(r.combined[m + 1], conv)) &&
    (forall m :: 0 <= m < |r.userSessionSongs| ==>
      m + 1 < |r.combined| && Some(r.userSessionSongs[m]) == UserInsert(r.combined[m + 1], conv))
  }

  /** A completed run's result: the combined file is the one written from
      `raw`, and each table received one INSERT per kept raw row, in order,
      built from that row's projection. */
  ghost predicate CompletedFrom<F>(r: RunOutcome<F>, raw: seq<Row>, conv: Conversions<F>)
    requires r.Completed? && AllReadable(raw)
  {
    var kept := KeptIndices(raw);
    r.combined == [HEADER] + CombinedRows(raw) &&
    |r.sessionSongs| == |r.userSessionSongs| == |r.songListeners| == |kept| &&
    forall m :: 0 <= m < |kept| ==>
      |raw[kept[m]]| >= RAW_WIDTH &&
      Some(r.sessionSongs[m]) == SessionInsert(Project(raw[kept[m]]), conv) &&
      Some(r.userSessionSongs[m]) == UserInsert(Project(raw[kept[m]]), conv) &&
      Some(r.songListeners[m]) == ListenerInsert(Project(raw[kept[m]]), conv)
  }

  /** SparkifyMusic_Project.py lines 143-251, run on the combined file written
      from `raw`: the load passes stop exactly when some kept raw row does not
      yield all three INSERTs; otherwise each table receives one INSERT per
      kept raw row, in order, built from that row's projection. */
  method LoadStage<F>(raw: seq<Row>, combined: seq<Row>, conv: Conversions<F>) returns (r: RunOutcome<F>)
    requires AllReadable(raw) && combined == [HEADER] + CombinedRows(raw)
    ensures r.LoadStopped? || r.Completed?
    ensures r.Completed? <==> AllInsertable(raw, conv)
    ensures r.LoadStopped? ==> StoppedAfter(r, raw, conv)
    ensures r.Completed? ==> CompletedFrom(r, raw, conv)
  {
    CombinedFileLines(HEADER, raw, conv);
    CombinedRowsCount(raw);
    var sessionSongs, userSessionSongs, songListeners, stopped := LoadTables(combined, conv);
    if stopped.Some? {
      return LoadStopped(stopped.value.0, stopped.value.1, combined, sessionSongs, userSessionSongs);
    }
    r := Completed(combined, sessionSongs, userSessionSongs, songListeners);
    var kept := KeptIndices(raw);
    forall m | 0 <= m < |kept|
      ensures |raw[kept[m]]| >= RAW_WIDTH
      ensures Some(sessionSongs[m]) == SessionInsert(Project(raw[kept[m]]), conv)
      ensures Some(userSessionSongs[m]) == UserInsert(Project(raw[kept[m]]), conv)
      ensures Some(songListeners[m]) == ListenerInsert(Project(raw[kept[m]]), conv)
    {
      CombinedRowsAt(raw, m);
      assert combined[m + 1] == Project(raw[kept[m]]);
    }
  }

  /** The whole script. `listings` are the directory listings os.walk yields,
      `contents` the rows the csv reader returns for a path, and `conv` the
      int/float conversions. The run stops at the first stage that raises: no
      directory, then the first empty event file, then the first unreadable raw
      row, then the first load pass that stops. A completed run wrote the
      header and one combined row per raw row with a non-empty artist, and
      inserted, into each table, one row per combined row, in the same order. */
  method Run<F>(listings: seq<seq<Path>>, contents: Path -> seq<Row>, conv: Conversions<F>)
    returns (r: RunOutcome<F>)
    ensures r.NoEventDirectory? <==> listings == []
    ensures listings != [] ==>
      var files := ReadAll(listings[|listings| - 1], contents);
      (r.MissingHeader? <==> !HasHeaders(files)) &&
      (r.MissingHeader? ==> r.file < |files| && files[r.file] == [] && HasHeaders(files[..r.file])) &&
      (r.UnreadableRow? <==> HasHeaders(files) && !AllReadable(FullDataRows(files))) &&
      (r.LoadStopped? <==>
        HasHeaders(files) && AllReadable(FullDataRows(files)) &&
        !AllInsertable(FullDataRows(files), conv)) &&
      (r.Completed? <==>
        HasHeaders(files) && AllReadable(FullDataRows(files)) &&
        AllInsertable(FullDataRows(files), conv))
    ensures r.UnreadableRow? ==>
      var files := ReadAll(listings[|listings| - 1], contents);
      HasHeaders(files) &&
      var raw := FullDataRows(files);
      r.row < |raw| && !Readable(raw[r.row]) && AllReadable(raw[..r.row]) &&
      r.written == [HEADER] + CombinedRows(raw[..r.row])
    ensures r.LoadStopped? ==>
      var files := ReadAll(listings[|listings| - 1], contents);
      HasHeaders(files) && AllReadable(FullDataRows(files)) &&
      StoppedAfter(r, FullDataRows(files), conv)
    ensures r.Completed? ==>
      var files := ReadAll(listings[|listings| - 1], contents);
      HasHeaders(files) && AllReadable(FullDataRows(files)) &&
      CompletedFrom(r, FullDataRows(files), conv)
  {
    var fileList := SelectFileList(listings);
    if fileList.None? {
      return NoEventDirectory;
    }
    assert fileList.value == listings[|listings| - 1];
    var files := ReadAll(fileList.value, contents);
    var raw, missingHeader := ConcatenateFiles(files);
    if missingHeader.Some? {
      return MissingHeader(missingHeader.value);
    }
    var combined, failedAt := WriteCombined(raw);
    if failedAt.Some? {
      return UnreadableRow(failedAt.value, combined);
    }
    r := LoadStage(raw, combined, conv);
  }
}

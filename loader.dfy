/** Part II of the script: three load passes over `event_datafile_new.csv`,
    one per query table. Each pass skips the header row and, for every line,
    executes one parameterised INSERT whose values are picked from fixed
    positions of the combined row, some of them converted with Python's
    `int(...)` or `float(...)`. */
module TableLoader {
  import opened Rows
  import Flattener

  /** Python's `int(...)` and `float(...)` on a field, left abstract: each either
      yields a value or raises (None). `F` stands for Python's float. */
  datatype Conversions<F> = Conversions(toInt: string -> Option<int>, toFloat: string -> Option<F>)

  // ---------------------------------------------------------------------------
  // The three INSERT statements
  // ---------------------------------------------------------------------------

  /** Values of one INSERT into song_info_by_session. */
  datatype SessionSong<F> = SessionSong(sessionId: int, itemInSession: int, artist: string, song: string, length: F)

  /** Values of one INSERT into song_info_by_user. */
  datatype UserSessionSong = UserSessionSong(userId: int, sessionId: int, itemInSession: int,
                                             artist: string, song: string, firstName: string, lastName: string)

  /** Values of one INSERT into user_info_by_song. */
  datatype SongListener = SongListener(song: string, userId: int, firstName: string, lastName: string)

  /** Column list of each INSERT, and the combined-row position its value is read from. */
  const SESSION_COLUMNS: seq<string> := ["sessionId", "itemInSession", "artist", "song", "length"]
  const SESSION_POSITIONS: seq<nat> := [8, 3, 0, 9, 5]
  const USER_COLUMNS: seq<string> := ["userId", "sessionId", "itemInSession", "artist", "song", "firstName", "lastName"]
  const USER_POSITIONS: seq<nat> := [10, 8, 3, 0, 9, 1, 4]
  const LISTENER_COLUMNS: seq<string> := ["song", "userId", "firstName", "lastName"]
  const LISTENER_POSITIONS: seq<nat> := [9, 10, 1, 4]

  /** The INSERT values for song_info_by_session from one combined line, or
      None where `line[i]`, `int(...)` or `float(...)` raises. The value for
      column SESSION_COLUMNS[k] is read at SESSION_POSITIONS[k]. */
  function SessionInsert<F>(line: Row, conv: Conversions<F>): (r: Option<SessionSong<F>>)
    ensures r.Some? <==>
      |line| > 9 &&
      conv.toInt(line[SESSION_POSITIONS[0]]).Some? &&
      conv.toInt(line[SESSION_POSITIONS[1]]).Some? &&
      conv.toFloat(line[SESSION_POSITIONS[4]]).Some?
    ensures r.Some? ==> r.value == SessionSong(
      conv.toInt(line[SESSION_POSITIONS[0]]).value, conv.toInt(line[SESSION_POSITIONS[1]]).value,
      line[SESSION_POSITIONS[2]], line[SESSION_POSITIONS[3]], conv.toFloat(line[SESSION_POSITIONS[4]]).value)
  {
    if |line| < 10 then None
    else
      match (conv.toInt(line[8]), conv.toInt(line[3]), conv.toFloat(line[5]))
      case (Some(sessionId), Some(itemInSession), Some(length)) =>
        Some(SessionSong(sessionId, itemInSession, line[0], line[9], length))
      case _ => None
  }

  /** The INSERT values for song_info_by_user from one combined line; the value
      for column USER_COLUMNS[k] is read at USER_POSITIONS[k]. */
  function UserInsert<F>(line: Row, conv: Conversions<F>): (r: Option<UserSessionSong>)
    ensures r.Some? <==>
      |line| > 10 &&
      conv.toInt(line[USER_POSITIONS[0]]).Some? &&
      conv.toInt(line[USER_POSITIONS[1]]).Some? &&
      conv.toInt(line[USER_POSITIONS[2]]).Some?
    ensures r.Some? ==> r.value == UserSessionSong(
      conv.toInt(line[USER_POSITIONS[0]]).value, conv.toInt(line[USER_POSITIONS[1]]).value,
      conv.toInt(line[USER_POSITIONS[2]]).value, line[USER_POSITIONS[3]], line[USER_POSITIONS[4]],
      line[USER_POSITIONS[5]], line[USER_POSITIONS[6]])
  {
    if |line| < 11 then None
    else
      match (conv.toInt(line[10]), conv.toInt(line[8]), conv.toInt(line[3]))
      case (Some(userId), Some(sessionId), Some(itemInSession)) =>
        Some(UserSessionSong(userId, sessionId, itemInSession, line[0], line[9], line[1], line[4]))
      case _ => None
  }

  /** The INSERT values for user_info_by_song from one combined line; the value
      for column LISTENER_COLUMNS[k] is read at LISTENER_POSITIONS[k]. */
  function ListenerInsert<F>(line: Row, conv: Conversions<F>): (r: Option<SongListener>)
    ensures r.Some? <==> |line| > 10 && conv.toInt(line[LISTENER_POSITIONS[1]]).Some?
    ensures r.Some? ==> r.value == SongListener(
      line[LISTENER_POSITIONS[0]], conv.toInt(line[LISTENER_POSITIONS[1]]).value,
      line[LISTENER_POSITIONS[2]], line[LISTENER_POSITIONS[3]])
  {
    if |line| < 11 then None
    else
      match conv.toInt(line[10])
      case Some(userId) => Some(SongListener(line[9], userId, line[1], line[4]))
      case None => None
  }

  /** Each value of table 1's INSERT is read from the combined column with the
      name the statement gives it, and through the projection from raw
      columns 12, 4, 0, 13 and 6. */
  lemma SessionPositionsAligned()
    ensures |SESSION_POSITIONS| == |SESSION_COLUMNS| == 5
    ensures forall j :: 0 <= j < 5 ==>
      Flattener.HEADER[SESSION_POSITIONS[j]] == SESSION_COLUMNS[j] &&
      Flattener.RAW_INDEX[SESSION_POSITIONS[j]] == [12, 4, 0, 13, 6][j]
  {
  }

  /** Table 2's INSERT: raw columns 16, 12, 4, 0, 13, 2 and 5. */
  lemma UserPositionsAligned()
    ensures |USER_POSITIONS| == |USER_COLUMNS| == 7
    ensures forall j :: 0 <= j < 7 ==>
      Flattener.HEADER[USER_POSITIONS[j]] == USER_COLUMNS[j] &&
      Flattener.RAW_INDEX[USER_POSITIONS[j]] == [16, 12, 4, 0, 13, 2, 5][j]
  {
  }

  /** Table 3's INSERT: raw columns 13, 16, 2 and 5. */
  lemma ListenerPositionsAligned()
    ensures |LISTENER_POSITIONS| == |LISTENER_COLUMNS| == 4
    ensures forall j :: 0 <= j < 4 ==>
      Flattener.HEADER[LISTENER_POSITIONS[j]] == LISTENER_COLUMNS[j] &&
      Flattener.RAW_INDEX[LISTENER_POSITIONS[j]] == [13, 16, 2, 5][j]
  {
  }

  /** Table 1's INSERT on a projected row, read back in raw columns: sessionId
      from raw 12, itemInSession from raw 4, artist from raw 0, song from raw
      13 and length from raw 6. */
  lemma SessionInsertFromRaw<F>(raw: Row, conv: Conversions<F>)
    requires |raw| >= Flattener.RAW_WIDTH
    ensures SessionInsert(Flattener.Project(raw), conv) ==
      match (conv.toInt(raw[12]), conv.toInt(raw[4]), conv.toFloat(raw[6]))
      case (Some(sessionId), Some(itemInSession), Some(length)) =>
        Some(SessionSong(sessionId, itemInSession, raw[0], raw[13], length))
      case _ => None
  {
  }

  /** Table 2's INSERT in raw columns: userId 16, sessionId 12, itemInSession 4,
      artist 0, song 13, firstName 2, lastName 5. */
  lemma UserInsertFromRaw<F>(raw: Row, conv: Conversions<F>)
    requires |raw| >= Flattener.RAW_WIDTH
    ensures UserInsert(Flattener.Project(raw), conv) ==
      match (conv.toInt(raw[16]), conv.toInt(raw[12]), conv.toInt(raw[4]))
      case (Some(userId), Some(sessionId), Some(itemInSession)) =>
        Some(UserSessionSong(userId, sessionId, itemInSession, raw[0], raw[13], raw[2], raw[5]))
      case _ => None
  {
  }

  /** Table 3's INSERT in raw columns: song 13, userId 16, firstName 2, lastName 5. */
  lemma ListenerInsertFromRaw<F>(raw: Row, conv: Conversions<F>)
    requires |raw| >= Flattener.RAW_WIDTH
    ensures ListenerInsert(Flattener.Project(raw), conv) ==
      match conv.toInt(raw[16])
      case Some(userId) => Some(SongListener(raw[13], userId, raw[2], raw[5]))
      case None => None
  {
  }

  // ---------------------------------------------------------------------------
  // A load pass
  // ---------------------------------------------------------------------------

  /** How a load pass ended: every line inserted, `next(csvreader)` raising on
      an empty file, or the INSERT values of line `line` raising. */
  datatype LoadOutcome = Loaded | NoHeader | AbortedAt(line: nat)

  /** One load pass (SparkifyMusic_Project.py lines 145-153, 195-201 and
      245-251): skip the header line, then for each line build the INSERT
      values with `build` and execute the statement, one at a time. `inserted`
      lists the executed INSERTs in order; the first line whose values cannot
      be built stops the script. */
  method LoadTable<T>(file: seq<Row>, build: Row -> Option<T>) returns (inserted: seq<T>, outcome: LoadOutcome)
    ensures outcome.NoHeader? <==> file == []
    ensures outcome.NoHeader? ==> inserted == []
    ensures outcome.Loaded? <==> file != [] && forall m :: 1 <= m < |file| ==> build(file[m]).Some?
    ensures outcome.Loaded? ==> |inserted| == |file| - 1
    ensures outcome.AbortedAt? ==>
      1 <= outcome.line < |file| && |inserted| == outcome.line - 1 && build(file[outcome.line]).None?
    ensures forall m :: 0 <= m < |inserted| ==> build(file[m + 1]) == Some(inserted[m])
  {
    inserted := [];
    if file == [] {
      outcome := NoHeader;
      return;
    }
    var i := 1;  // next(csvreader) consumed the header line
    while i < |file|
      invariant 1 <= i <= |file|
      invariant |inserted| == i - 1
      invariant forall m :: 0 <= m < |inserted| ==> build(file[m + 1]) == Some(inserted[m])
    {
      var values := build(file[i]);
      if values.None? {
        outcome := AbortedAt(i);
        return;
      }
      inserted := inserted + [values.value];
      i := i + 1;
    }
    assert forall m :: 1 <= m < |file| ==> build(file[m]) == Some(inserted[m - 1]);
    outcome := Loaded;
  }
}

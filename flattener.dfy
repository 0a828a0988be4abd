/** Part I of the script: pick the event files, concatenate their data rows
    (each file's header row dropped) into `full_data_rows_list`, and write the
    combined file `event_datafile_new.csv`: a fixed 11-name header row, then one
    projected row per raw row whose artist field is not empty. */
module Flattener {
  import opened Rows

  type Path = string

  // ---------------------------------------------------------------------------
  // Choosing the event files (the os.walk loop)
  // ---------------------------------------------------------------------------

  /** `file_path_list` after the os.walk loop. The walk yields one listing per
      directory visited, in walk order, and each iteration REASSIGNS the list,
      so only the last directory's listing survives. When the walk yields
      nothing the name is never bound (None). */
  method SelectFileList(listings: seq<seq<Path>>) returns (fileList: Option<seq<Path>>)
    ensures fileList.None? <==> listings == []
    ensures fileList.Some? ==> fileList.value == listings[|listings| - 1]
  {
    fileList := None;
    var i := 0;
    while i < |listings|
      invariant 0 <= i <= |listings|
      invariant i == 0 ==> fileList.None?
      invariant i > 0 ==> fileList == Some(listings[i - 1])
    {
      fileList := Some(listings[i]);
      i := i + 1;
    }
  }

  // ---------------------------------------------------------------------------
  // Concatenating the event files
  // ---------------------------------------------------------------------------

  /** Every file has a first row for `next(csvreader)` to consume. */
  predicate HasHeaders(files: seq<seq<Row>>) {
    forall k :: 0 <= k < |files| ==> |files[k]| > 0
  }

  /** Number of data rows (rows after the header) over all files. */
  function DataCount(files: seq<seq<Row>>): nat
    requires HasHeaders(files)
  {
    if files == [] then 0
    else DataCount(files[..|files| - 1]) + |files[|files| - 1]| - 1
  }

  /** `full_data_rows_list` once every file has been read: each file's rows
      with its first row removed, files in order. */
  function FullDataRows(files: seq<seq<Row>>): (rows: seq<Row>)
    requires HasHeaders(files)
    ensures |rows| == DataCount(files)
  {
    if files == [] then []
    else FullDataRows(files[..|files| - 1]) + files[|files| - 1][1..]
  }

  /** Row j (j >= 1, so not the header) of file i sits in the concatenation
      right after the data rows of files 0..i-1. */
  lemma {:induction false} FullDataRowsAt(files: seq<seq<Row>>, i: nat, j: nat)
    requires HasHeaders(files)
    requires i < |files| && 1 <= j < |files[i]|
    ensures DataCount(files[..i]) + j - 1 < |FullDataRows(files)|
    ensures FullDataRows(files)[DataCount(files[..i]) + j - 1] == files[i][j]
  {
    var n := |files| - 1;
    var init := files[..n];
    if i == n {
      assert files[..i] == init;
    } else {
      assert init[..i] == files[..i];
      FullDataRowsAt(init, i, j);
    }
  }

  /** The loop at SparkifyMusic_Project.py lines 46-60:
      `full_data_rows_list` grown by one `append` per data row. An empty file
      makes `next(csvreader)` raise, which stops the script; `missingHeader`
      then names that file and `fullDataRows` is what had been appended up to
      it. */
  method ConcatenateFiles(files: seq<seq<Row>>) returns (fullDataRows: seq<Row>, missingHeader: Option<nat>)
    ensures missingHeader.None? <==> HasHeaders(files)
    ensures missingHeader.None? ==> fullDataRows == FullDataRows(files)
    ensures missingHeader.Some? ==>
      var k := missingHeader.value;
      k < |files| && files[k] == [] && HasHeaders(files[..k]) &&
      fullDataRows == FullDataRows(files[..k])
  {
    fullDataRows := [];
    var i := 0;
    while i < |files|
      invariant 0 <= i <= |files|
      invariant HasHeaders(files[..i])
      invariant fullDataRows == FullDataRows(files[..i])
    {
      var file := files[i];
      if file == [] {
        missingHeader := Some(i);
        return;
      }
      var j := 1;  // next(csvreader) consumed row 0
      while j < |file|
        invariant 1 <= j <= |file|
        invariant fullDataRows == FullDataRows(files[..i]) + file[1..j]
      {
        fullDataRows := fullDataRows + [file[j]];
        j := j + 1;
      }
      assert files[..i + 1][..i] == files[..i];
      i := i + 1;
    }
    assert files[..i] == files;
    missingHeader := None;
  }

  // ---------------------------------------------------------------------------
  // The combined file
  // ---------------------------------------------------------------------------

  /** The header row of `event_datafile_new.csv`. */
  const HEADER: Row := ["artist", "firstName", "gender", "itemInSession", "lastName", "length",
                        "level", "location", "sessionId", "song", "userId"]

  /** Raw column feeding each combined column, position by position. */
  const RAW_INDEX: seq<nat> := [0, 2, 3, 4, 5, 6, 7, 8, 12, 13, 16]

  /** The projection reads raw fields up to index 16. */
  const RAW_WIDTH: nat := 17

  /** The tuple written for a kept row. */
  function Project(row: Row): (out: Row)
    requires |row| >= RAW_WIDTH
    ensures |out| == |HEADER| == |RAW_INDEX|
    ensures forall c :: 0 <= c < |out| ==> RAW_INDEX[c] < |row| && out[c] == row[RAW_INDEX[c]]
  {
    [row[0], row[2], row[3], row[4], row[5], row[6], row[7], row[8], row[12], row[13], row[16]]
  }

  /** The write loop gets past this row without an IndexError: `row[0]` exists,
      and a row that is not skipped has every field the projection reads. */
  predicate Readable(row: Row) {
    |row| >= 1 && (row[0] != "" ==> |row| >= RAW_WIDTH)
  }

  predicate AllReadable(rows: seq<Row>) {
    forall k :: 0 <= k < |rows| ==> Readable(rows[k])
  }

  /** Rows skipped by the `continue`: those whose artist field is empty. */
  function EmptyArtistCount(rows: seq<Row>): nat
    requires AllReadable(rows)
  {
    if rows == [] then 0
    else EmptyArtistCount(rows[..|rows| - 1]) + (if rows[|rows| - 1][0] == "" then 1 else 0)
  }

  /** Positions of the raw rows that produce an output row, in increasing
      order: exactly those whose artist field is non-empty. */
  function KeptIndices(rows: seq<Row>): (ks: seq<nat>)
    requires AllReadable(rows)
    ensures |ks| + EmptyArtistCount(rows) == |rows|
    ensures forall j :: 0 <= j < |ks| ==> ks[j] < |rows| && rows[ks[j]][0] != ""
    ensures forall j, j' :: 0 <= j < j' < |ks| ==> ks[j] < ks[j']
    ensures forall k :: 0 <= k < |rows| && rows[k][0] != "" ==> k in ks
  {
    if rows == [] then []
    else
      var n := |rows| - 1;
      KeptIndices(rows[..n]) + (if rows[n][0] == "" then [] else [n])
  }

  /** The data rows of `event_datafile_new.csv`, one per raw row with a
      non-empty artist (see CombinedRowsAt for what each one is). */
  function CombinedRows(rows: seq<Row>): (out: seq<Row>)
    requires AllReadable(rows)
    ensures |out| <= |rows|
  {
    if rows == [] then []
    else
      var n := |rows| - 1;
      CombinedRows(rows[..n]) + (if rows[n][0] == "" then [] else [Project(rows[n])])
  }

  /** There is one output row per kept raw row. */
  lemma {:induction false} CombinedRowsCount(rows: seq<Row>)
    requires AllReadable(rows)
    ensures |CombinedRows(rows)| == |KeptIndices(rows)|
  {
    if rows != [] {
      var n := |rows| - 1;
      ReadablePrefix(rows, n);
      CombinedRowsCount(rows[..n]);
    }
  }

  /** Output row j is the projection of the j-th raw row with a non-empty
      artist. */
  lemma {:induction false} CombinedRowsAt(rows: seq<Row>, j: nat)
    requires AllReadable(rows) && j < |CombinedRows(rows)|
    ensures j < |KeptIndices(rows)|
    ensures |rows[KeptIndices(rows)[j]]| >= RAW_WIDTH
    ensures CombinedRows(rows)[j] == Project(rows[KeptIndices(rows)[j]])
  {
    var n := |rows| - 1;
    var init := rows[..n];
    ReadablePrefix(rows, n);
    CombinedRowsCount(rows);
    CombinedRowsCount(init);
    if j < |CombinedRows(init)| {
      CombinedRowsAt(init, j);
      assert KeptIndices(rows)[j] == KeptIndices(init)[j];
      assert init[KeptIndices(init)[j]] == rows[KeptIndices(init)[j]];
    } else {
      assert rows[n][0] != "";
      assert KeptIndices(rows)[j] == n;
    }
  }

  /** Readability is per row, so it survives concatenation and prefixes. */
  lemma ReadableAppend(a: seq<Row>, b: seq<Row>)
    requires AllReadable(a) && AllReadable(b)
    ensures AllReadable(a + b)
  {
    forall k | 0 <= k < |a + b| ensures Readable((a + b)[k]) {
      if k >= |a| { assert (a + b)[k] == b[k - |a|]; }
    }
  }

  lemma ReadablePrefix(rows: seq<Row>, n: nat)
    requires AllReadable(rows) && n <= |rows|
    ensures AllReadable(rows[..n])
  {
    forall k | 0 <= k < n ensures Readable(rows[..n][k]) { assert rows[..n][k] == rows[k]; }
  }

  /** The last raw row contributes its projection, or nothing when its
      artist is empty. */
  lemma CombinedRowsLast(rows: seq<Row>)
    requires AllReadable(rows) && rows != []
    ensures AllReadable(rows[..|rows| - 1])
    ensures CombinedRows(rows) == CombinedRows(rows[..|rows| - 1]) +
      (if rows[|rows| - 1][0] == "" then [] else [Project(rows[|rows| - 1])])
  {
    ReadablePrefix(rows, |rows| - 1);
  }

  /** Filtering the concatenation is filtering each part and concatenating:
      it does not matter which file a row came from. */
  lemma {:induction false} CombinedRowsAppend(a: seq<Row>, b: seq<Row>)
    requires AllReadable(a) && AllReadable(b)
    ensures AllReadable(a + b)
    ensures CombinedRows(a + b) == CombinedRows(a) + CombinedRows(b)
  {
    ReadableAppend(a, b);
    if b != [] {
      var n := |b| - 1;
      ReadablePrefix(b, n);
      assert (a + b)[..|a + b| - 1] == a + b[..n];
      assert (a + b)[|a + b| - 1] == b[n];
      CombinedRowsAppend(a, b[..n]);
      CombinedRowsLast(a + b);
      CombinedRowsLast(b);
    } else {
      assert a + b == a;
    }
  }

  /** One more readable raw row adds at most its own projection. */
  lemma WriteStep(rows: seq<Row>, i: nat)
    requires i < |rows| && AllReadable(rows[..i]) && Readable(rows[i])
    ensures AllReadable(rows[..i + 1])
    ensures CombinedRows(rows[..i + 1]) ==
      CombinedRows(rows[..i]) + (if rows[i][0] == "" then [] else [Project(rows[i])])
  {
    assert rows[..i + 1][..i] == rows[..i];
  }

  /** SparkifyMusic_Project.py lines 67-73: `event_datafile_new.csv` is
      written from scratch, the header row first and once, then each raw row
      in order: skipped (`continue`) when its artist is empty, written
      projected otherwise. A row that raises IndexError stops the script;
      `failedAt` names it and `written` is what the file holds by then. */
  method WriteCombined(rows: seq<Row>) returns (written: seq<Row>, failedAt: Option<nat>)
    ensures failedAt.None? <==> AllReadable(rows)
    ensures failedAt.None? ==> written == [HEADER] + CombinedRows(rows)
    ensures failedAt.Some? ==>
      var k := failedAt.value;
      k < |rows| && !Readable(rows[k]) && AllReadable(rows[..k]) &&
      written == [HEADER] + CombinedRows(rows[..k])
  {
    written := [HEADER];
    var i := 0;
    while i < |rows|
      invariant 0 <= i <= |rows|
      invariant AllReadable(rows[..i])
      invariant written == [HEADER] + CombinedRows(rows[..i])
    {
      var row := rows[i];
      if |row| == 0 {
        failedAt := Some(i);
        return;
      }
      if row[0] == "" {
        WriteStep(rows, i);
        assert CombinedRows(rows[..i + 1]) == CombinedRows(rows[..i]);
        i := i + 1;
        continue;
      }
      if |row| < RAW_WIDTH {
        failedAt := Some(i);
        return;
      }
      WriteStep(rows, i);
      assert [HEADER] + (CombinedRows(rows[..i]) + [Project(row)]) == written + [Project(row)];
      written := written + [Project(row)];
      i := i + 1;
    }
    assert rows[..i] == rows;
    failedAt := None;
  }
}

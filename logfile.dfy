/** CSV log files (the order history): a file on disk that a `LogBase` opens
    in append mode, writes a header into when it creates the file, and appends
    rows to through a csv writer. The disk is modelled as a map from path to
    rows; the csv writer is identified by the file handle it writes into. */
module Logfile {
  import opened Wrappers
  import opened Http

  /** One column of a log: its key (used in dict rows) and its display title. */
  datatype Column = Column(key: string, title: string)

  /** A CSV row: one cell per column. */
  type Row = seq<Json>

  /** The column keys, in insertion order (`columns.keys()`). */
  function Headers(columns: seq<Column>): (r: seq<string>)
    ensures |r| == |columns|
    ensures forall i :: 0 <= i < |columns| ==> r[i] == columns[i].key
  {
    seq(|columns|, i requires 0 <= i < |columns| => columns[i].key)
  }

  /** The header row `_write_header` writes: the column keys as cells. */
  function HeaderRow(columns: seq<Column>): (r: Row)
    ensures |r| == |columns|
    ensures forall i :: 0 <= i < |columns| ==> r[i] == JStr(columns[i].key)
  {
    seq(|columns|, i requires 0 <= i < |columns| => JStr(columns[i].key))
  }

  /** The row `write_row_by_dict` writes: for each header, in order, the dict's
      value, or the empty string when the dict lacks that key. */
  function RowFromDict(headers: seq<string>, d: map<string, Json>): (r: Row)
    ensures |r| == |headers|
    ensures forall i :: 0 <= i < |headers| && headers[i] in d ==> r[i] == d[headers[i]]
    ensures forall i :: 0 <= i < |headers| && headers[i] !in d ==> r[i] == JStr("")
  {
    seq(|headers|, i requires 0 <= i < |headers| => if headers[i] in d then d[headers[i]] else JStr(""))
  }

  /** The record `get_new_record` returns: every header, mapped to its default
      value when one is set and to None otherwise. */
  function NewRecord(headers: seq<string>, defaults: map<string, Json>): (r: map<string, Json>)
    ensures r.Keys == set h | h in headers
    ensures forall h :: h in r ==> r[h] == (if h in defaults then defaults[h] else JNull)
  {
    map h | h in headers :: if h in defaults then defaults[h] else JNull
  }

  /** No key occurs twice (a dict's keys). */
  predicate Distinct(headers: seq<string>) {
    forall i, j :: 0 <= i < j < |headers| ==> headers[i] != headers[j]
  }

  /** Reads a row back into a dict, pairing each header with its cell. */
  function DictFromRow(headers: seq<string>, row: Row): (d: map<string, Json>)
    requires Distinct(headers) && |row| == |headers|
    ensures d.Keys == set h | h in headers
  {
    map i | 0 <= i < |headers| :: headers[i] := row[i]
  }

  /** `write_row_by_dict` reads only the columns: keys outside them change nothing. */
  lemma RowIgnoresExtraKeys(headers: seq<string>, d: map<string, Json>, extra: map<string, Json>)
    requires forall k :: k in extra ==> k !in headers
    ensures RowFromDict(headers, d + extra) == RowFromDict(headers, d)
  {
  }

  /** A dict keyed by exactly the columns survives a write and a read back
      unchanged: no cell is lost, moved or filled in. */
  lemma {:induction false} RowFromDictRoundTrip(headers: seq<string>, d: map<string, Json>)
    requires Distinct(headers)
    requires d.Keys == set h | h in headers
    ensures DictFromRow(headers, RowFromDict(headers, d)) == d
  {
    var row := RowFromDict(headers, d);
    var back := DictFromRow(headers, row);
    forall k | k in d
      ensures k in back && back[k] == d[k]
    {
      var i :| 0 <= i < |headers| && headers[i] == k;
      assert row[i] == d[k];
      assert back[headers[i]] == row[i];
    }
  }

  /** A fresh record written by dict fills every column with that column's
      default, or None: it never produces the empty-string filler. */
  lemma NewRecordFillsEveryColumn(headers: seq<string>, defaults: map<string, Json>)
    ensures var row := RowFromDict(headers, NewRecord(headers, defaults));
      forall i :: 0 <= i < |headers| ==>
        row[i] == (if headers[i] in defaults then defaults[headers[i]] else JNull)
  {
  }

  /** The file system the logs live on: each existing path and its rows. */
  class Disk {
    var files: map<string, seq<Row>>

    constructor (files: map<string, seq<Row>>)
      ensures this.files == files
    {
      this.files := files;
    }
  }

  /** A CSV log file (`LogBase`). `file` is the handle opened last (None before
      any open), `writer` the handle the csv writer writes into (None until
      one is created), `closed` the handles closed so far. */
  class LogBase {
    const disk: Disk
    const fullPath: string
    const asNew: bool
    const encoding: string
    const withHeader: bool
    const delimiter: string
    const lineTerminator: string
    var columns: seq<Column>
    var defaultValues: map<string, Json>
    var file: Option<nat>
    var writer: Option<nat>
    var closed: set<nat>
    var nextHandle: nat

    /** Every handle mentioned has been opened already. */
    ghost predicate Valid()
      reads this
    {
      && (file.Some? ==> file.value < nextHandle)
      && (writer.Some? ==> writer.value < nextHandle)
      && (forall h :: h in closed ==> h < nextHandle)
    }

    /** The rows currently in the log's file (none when it does not exist). */
    function Rows(): seq<Row>
      reads this, disk
    {
      if fullPath in disk.files then disk.files[fullPath] else []
    }

    constructor (disk: Disk, fullPath: string, asNew: bool, encoding: string, withHeader: bool,
                 delimiter: string, lineTerminator: string)
      ensures Valid()
      ensures this.disk == disk && this.fullPath == fullPath && this.asNew == asNew
      ensures this.encoding == encoding && this.withHeader == withHeader
      ensures this.delimiter == delimiter && this.lineTerminator == lineTerminator
      ensures columns == [] && defaultValues == map[]
      ensures file == None && writer == None && closed == {}
    {
      this.disk := disk;
      this.fullPath := fullPath;
      this.asNew := asNew;
      this.encoding := encoding;
      this.withHeader := withHeader;
      this.delimiter := delimiter;
      this.lineTerminator := lineTerminator;
      columns := [];
      defaultValues := map[];
      file := None;
      writer := None;
      closed := {};
      nextHandle := 0;
    }

    /** `OrderHistory`: never recreated, always with a header, shift_jis, the given columns. */
    constructor OrderHistory(disk: Disk, fullPath: string, columns: seq<Column>)
      ensures Valid()
      ensures this.disk == disk && this.fullPath == fullPath
      ensures !asNew && withHeader && encoding == "shift_jis"
      ensures delimiter == "," && lineTerminator == "\n"
      ensures this.columns == columns && defaultValues == map[]
      ensures file == None && writer == None && closed == {}
    {
      this.disk := disk;
      this.fullPath := fullPath;
      asNew := false;
      encoding := "shift_jis";
      withHeader := true;
      delimiter := ",";
      lineTerminator := "\n";
      this.columns := columns;
      defaultValues := map[];
      file := None;
      writer := None;
      closed := {};
      nextHandle := 0;
    }

    /** `get_headers`: the column keys in insertion order. */
    function GetHeaders(): (r: seq<string>)
      reads this
      ensures |r| == |columns|
      ensures forall i :: 0 <= i < |r| ==> r[i] == columns[i].key
    {
      Headers(columns)
    }

    /** `get_columns_num`: as many columns as headers. */
    function GetColumnsNum(): (n: nat)
      reads this
      ensures n == |GetHeaders()|
    {
      |columns|
    }

    /** `get_new_record`: exactly the column keys, each with its default or None. */
    function GetNewRecord(): (r: map<string, Json>)
      reads this
      ensures r.Keys == set h | h in GetHeaders()
      ensures forall h :: h in r ==> r[h] == (if h in defaultValues then defaultValues[h] else JNull)
    {
      NewRecord(GetHeaders(), defaultValues)
    }

    /** The csv writer's `writerow`: appends to the file unless its handle is closed. */
    method AppendRow(row: Row) returns (o: Outcome<Error>)
      requires writer.Some?
      modifies disk
      ensures o.Pass? <==> writer.value !in closed
      ensures o.Fail? ==> o.error == ValueError("I/O operation on closed file.")
      ensures disk.files == if o.Pass? then old(disk.files)[fullPath := old(Rows()) + [row]] else old(disk.files)
    {
      if writer.value in closed {
        return Fail(ValueError("I/O operation on closed file."));
      }
      disk.files := disk.files[fullPath := Rows() + [row]];
      o := Pass;
    }

    /** `_write_header`: refuses without a writer, else appends the header row. */
    method WriteHeader() returns (o: Outcome<Error>)
      modifies disk
      ensures writer.None? ==> o == Fail(Exception("Writer is not initialized.")) && disk.files == old(disk.files)
      ensures writer.Some? && writer.value !in closed ==>
        o == Pass && disk.files == old(disk.files)[fullPath := old(Rows()) + [HeaderRow(columns)]]
      ensures writer.Some? && writer.value in closed ==>
        o == Fail(ValueError("I/O operation on closed file.")) && disk.files == old(disk.files)
    {
      if writer.None? {
        return Fail(Exception("Writer is not initialized."));
      }
      o := AppendRow(HeaderRow(columns));
    }

    /** `write_row`: refuses without a writer, else appends `row`. */
    method WriteRow(row: Row) returns (o: Outcome<Error>)
      modifies disk
      ensures writer.None? ==> o == Fail(Exception("writer is not initialized.")) && disk.files == old(disk.files)
      ensures writer.Some? && writer.value !in closed ==>
        o == Pass && disk.files == old(disk.files)[fullPath := old(Rows()) + [row]]
      ensures writer.Some? && writer.value in closed ==>
        o == Fail(ValueError("I/O operation on closed file.")) && disk.files == old(disk.files)
    {
      if writer.None? {
        return Fail(Exception("writer is not initialized."));
      }
      o := AppendRow(row);
    }

    /** `write_row_by_dict`: refuses without a writer, else appends the dict
        projected onto the columns. */
    method WriteRowByDict(d: map<string, Json>) returns (o: Outcome<Error>)
      modifies disk
      ensures writer.None? ==> o == Fail(Exception("Writer is not initialized.")) && disk.files == old(disk.files)
      ensures writer.Some? && writer.value !in closed ==>
        o == Pass && disk.files == old(disk.files)[fullPath := old(Rows()) + [RowFromDict(GetHeaders(), d)]]
      ensures writer.Some? && writer.value in closed ==>
        o == Fail(ValueError("I/O operation on closed file.")) && disk.files == old(disk.files)
    {
      if writer.None? {
        return Fail(Exception("Writer is not initialized."));
      }
      o := WriteRow(RowFromDict(GetHeaders(), d));
    }

    /** `_initialize`: with `as_new` an existing file is removed; the file is then
        opened for appending (which creates it). Only a file that did not exist
        gets a new writer and, with `with_header`, a header row. */
    method Initialize()
      requires Valid()
      modifies this, disk
      ensures Valid()
      ensures columns == old(columns) && defaultValues == old(defaultValues) && closed == old(closed)
      ensures nextHandle == old(nextHandle) + 1 && file == Some(old(nextHandle))
      ensures var isNew := asNew || fullPath !in old(disk.files);
        && writer == (if isNew then file else old(writer))
        && disk.files == old(disk.files)[fullPath :=
             if !isNew then old(disk.files)[fullPath]
             else if withHeader then [HeaderRow(columns)]
             else []]
    {
      if fullPath in disk.files && asNew {
        disk.files := disk.files - {fullPath};
      }
      var isNewFile := fullPath !in disk.files;
      if isNewFile {
        disk.files := disk.files[fullPath := []];
      }
      file := Some(nextHandle);
      nextHandle := nextHandle + 1;
      if isNewFile {
        writer := file;
        if withHeader {
          assert writer.value !in closed && Rows() == [];
          var _ := WriteHeader();
          assert [] + [HeaderRow(columns)] == [HeaderRow(columns)];
        }
      }
    }

    /** `__enter__`: initializes, which leaves the writer as it was on an existing file. */
    method Enter()
      requires Valid()
      modifies this, disk
      ensures Valid()
      ensures columns == old(columns) && defaultValues == old(defaultValues) && closed == old(closed)
      ensures file == Some(old(nextHandle))
      ensures var isNew := asNew || fullPath !in old(disk.files);
        && writer == (if isNew then file else old(writer))
        && disk.files == old(disk.files)[fullPath :=
             if !isNew then old(disk.files)[fullPath]
             else if withHeader then [HeaderRow(columns)]
             else []]
    {
      Initialize();
    }

    /** `open`: initializes, then always points a new writer at the opened file. */
    method Open()
      requires Valid()
      modifies this, disk
      ensures Valid()
      ensures columns == old(columns) && defaultValues == old(defaultValues) && closed == old(closed)
      ensures file == Some(old(nextHandle)) && writer == file && writer.value !in closed
      ensures var isNew := asNew || fullPath !in old(disk.files);
        disk.files == old(disk.files)[fullPath :=
          if !isNew then old(disk.files)[fullPath]
          else if withHeader then [HeaderRow(columns)]
          else []]
    {
      Initialize();
      writer := file;
    }

    /** `close` (and `__exit__`): closes the file handle, if a file was ever opened. */
    method Close()
      modifies this
      ensures file == old(file) && writer == old(writer) && columns == old(columns)
      ensures nextHandle == old(nextHandle) && defaultValues == old(defaultValues)
      ensures closed == if file.Some? then old(closed) + {file.value} else old(closed)
    {
      if file.Some? {
        closed := closed + {file.value};
      }
    }
  }

  /** Entering a log whose file already exists leaves it without a writer, so a
      write right after raises instead of appending. */
  method EnterExistingThenWrite(disk: Disk, fullPath: string, columns: seq<Column>, row: Row)
    returns (o: Outcome<Error>)
    requires fullPath in disk.files
    modifies disk
    ensures o == Fail(Exception("writer is not initialized."))
    ensures disk.files == old(disk.files)
  {
    var log := new LogBase.OrderHistory(disk, fullPath, columns);
    log.Enter();
    o := log.WriteRow(row);
  }

  /** Opening the same log instead always gives a writer: the row is appended
      after the existing rows, or after a fresh header when the file is new. */
  method OpenThenWrite(disk: Disk, fullPath: string, columns: seq<Column>, row: Row)
    returns (o: Outcome<Error>)
    modifies disk
    ensures o == Pass
    ensures disk.files == old(disk.files)[fullPath :=
      (if fullPath in old(disk.files) then old(disk.files)[fullPath] else [HeaderRow(columns)]) + [row]]
  {
    var log := new LogBase.OrderHistory(disk, fullPath, columns);
    log.Open();
    o := log.WriteRow(row);
  }
}

/**
 * The session history: one row per finished study session, kept in a flat
 * table file. The file is modelled as a value (`None` when it does not
 * exist); reading it is `Load` and `save_session` is `Store.Save`.
 */
module SessionStore {
  import opened Wrappers

  /** One row of the history table: Date, Subject, Topic, Duration_Minutes, Breaks. */
  datatype Row = Row(date: string, subject: string, topic: string, minutes: real, breaks: int)

  /**
   * The table as stored. Files written before break counting existed have no
   * `Breaks` column: `hasBreaks` is false and the `breaks` of their rows is
   * meaningless.
   */
  datatype CsvFile = CsvFile(hasBreaks: bool, rows: seq<Row>)

  /** A row read from a file without a `Breaks` column. */
  function WithoutBreaks(r: Row): (d: Row)
    ensures d.breaks == 0
    ensures d.date == r.date && d.subject == r.subject && d.topic == r.topic && d.minutes == r.minutes
  {
    r.(breaks := 0)
  }

  /** `load_data()` (tracker.py lines 13-21). */
  function Load(file: Option<CsvFile>): (rows: seq<Row>)
    ensures file.None? ==> rows == []
    ensures file.Some? ==> |rows| == |file.value.rows|
    ensures file.Some? ==> forall i :: 0 <= i < |rows| ==>
      rows[i] == if file.value.hasBreaks then file.value.rows[i] else WithoutBreaks(file.value.rows[i])
  {
    match file
    case None => []
    case Some(f) =>
      if f.hasBreaks then f.rows
      else seq(|f.rows|, i requires 0 <= i < |f.rows| => WithoutBreaks(f.rows[i]))
  }

  /** `df.to_csv(...)`: the table written with the full column set. */
  function Encode(rows: seq<Row>): (file: CsvFile)
    ensures file.hasBreaks
    ensures Load(Some(file)) == rows
  {
    CsvFile(true, rows)
  }

  /** The history file, updated in place by `save_session`. */
  class Store {
    var file: Option<CsvFile>

    /** The table `load_data()` returns now. */
    function Rows(): seq<Row>
      reads this
    {
      Load(file)
    }

    constructor (file: Option<CsvFile>)
      ensures this.file == file
    {
      this.file := file;
    }

    /**
     * `save_session` (tracker.py lines 23-34): load the table, append one row
     * and write the whole table back. The date is the caller's clock reading.
     */
    method Save(date: string, subject: string, topic: string, minutes: real, breaks: int)
      returns (entry: Row)
      modifies this
      ensures entry == Row(date, subject, topic, minutes, breaks)
      ensures file == Some(Encode(old(Rows()) + [entry]))
      ensures Rows() == old(Rows()) + [entry]
      ensures |Rows()| == |old(Rows())| + 1 && Rows()[|Rows()| - 1] == entry
      ensures forall i :: 0 <= i < |old(Rows())| ==> Rows()[i] == old(Rows())[i]
    {
      var table := Load(file);
      entry := Row(date, subject, topic, minutes, breaks);
      table := table + [entry];
      file := Some(Encode(table));
    }
  }
}

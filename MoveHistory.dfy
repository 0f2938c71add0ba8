/** The move-history export: the audit log written out as CSV, newest entry first as kept. */
module MoveHistory {
  import opened Strings
  import opened StockTypes
  import opened CsvParser
  import opened CsvExport

  /** The ten column names of the history export. */
  const LogHeaders := ["日時", "操作者", "品目名", "カテゴリ", "数量", "単位", "移動元支店", "移動元保管場所", "移動先支店", "移動先保管場所"]

  /** The cells of one log entry, in the column order. */
  function LogRow(log: MoveLog): (cells: seq<string>)
    ensures |cells| == |LogHeaders|
  {
    [log.timestamp, log.operator, log.itemName, log.category, IntToString(log.quantity), log.unit,
     log.fromBranch, log.fromStorage, log.toBranch, log.toStorage]
  }

  function LogRows(logs: seq<MoveLog>): (rows: seq<seq<string>>)
    ensures |rows| == |logs|
    ensures forall k :: 0 <= k < |logs| ==> rows[k] == LogRow(logs[k])
  {
    if logs == [] then [] else [LogRow(logs[0])] + LogRows(logs[1..])
  }

  /** The text `exportCSV` saves: a byte-order mark, the header line, one line per entry. */
  function HistoryCsv(logs: seq<MoveLog>): (r: string)
    ensures logs == [] ==> r == WithBom(Join(LogHeaders, ","))
  {
    WithBom(ExportContent(LogHeaders, LogRows(logs)))
  }

  /** After the byte-order mark, the history splits into the header line and one line per entry
    * in log order, each reading back as that entry's ten cells, as long as no cell holds a line
    * feed or a quote or has surrounding white space. */
  lemma HistoryCsvRoundTrip(logs: seq<MoveLog>)
    requires forall k :: 0 <= k < |logs| ==> CleanRow(LogRow(logs[k]))
    ensures var lines := Split(HistoryCsv(logs)[1..], '\n');
      |lines| == |logs| + 1 && lines[0] == Join(LogHeaders, ",")
      && forall k :: 0 <= k < |logs| ==> ParseLine(lines[k + 1]) == LogRow(logs[k])
  {
    JoinAvoids(LogHeaders, ",", '\n');
    ExportRoundTrip(LogHeaders, LogRows(logs));
  }
}

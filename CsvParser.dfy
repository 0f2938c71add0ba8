/** CSV ingest of stock rows: the quote-aware line splitter, header and category
  * normalisation, date normalisation and the conversion of one row into a stock row. */
module CsvParser {
  import opened Wrappers
  import opened Strings
  import opened StockTypes

  // ---------------------------------------------------------------- line splitting

  /** What `parseCSVLine` carries from one character to the next. */
  datatype Scan = Scan(fields: seq<string>, current: string, inQuotes: bool)

  /** The character loop of `parseCSVLine`, run over the text not yet read: `""` inside quotes
    * is one literal quote, any other quote toggles quoting and is dropped, and a comma outside
    * quotes ends a field, which is stored trimmed. */
  function ScanFrom(rest: string, st: Scan): Scan
    decreases |rest|
  {
    if rest == [] then st
    else if rest[0] == '"' then
      if st.inQuotes && |rest| > 1 && rest[1] == '"' then ScanFrom(rest[2..], st.(current := st.current + "\""))
      else ScanFrom(rest[1..], st.(inQuotes := !st.inQuotes))
    else if rest[0] == ',' && !st.inQuotes then ScanFrom(rest[1..], Scan(st.fields + [Trim(st.current)], "", false))
    else ScanFrom(rest[1..], st.(current := st.current + [rest[0]]))
  }

  /** The fields `parseCSVLine` returns for `line`. */
  function ParseLine(line: string): seq<string> {
    var st := ScanFrom(line, Scan([], "", false));
    st.fields + [Trim(st.current)]
  }

  /** `parseCSVLine`. */
  method ParseCsvLine(line: string) returns (result: seq<string>)
    ensures result == ParseLine(line)
    ensures |result| == 1 + CommasOutsideQuotes(line, false)
  {
    result := [];
    var current := "";
    var inQuotes := false;
    var i := 0;
    while i < |line|
      invariant 0 <= i <= |line|
      invariant ScanFrom(line[i..], Scan(result, current, inQuotes)) == ScanFrom(line, Scan([], "", false))
    {
      var c := line[i];
      assert line[i..][0] == c && line[i..][1..] == line[i + 1..];
      if c == '"' {
        if inQuotes && i + 1 < |line| && line[i + 1] == '"' {
          assert line[i..][2..] == line[i + 2..];
          current := current + "\"";
          i := i + 1;
        } else {
          inQuotes := !inQuotes;
        }
      } else if c == ',' && !inQuotes {
        result := result + [Trim(current)];
        current := "";
      } else {
        current := current + [c];
      }
      i := i + 1;
    }
    result := result + [Trim(current)];
    ScanFieldCount(line, Scan([], "", false));
  }

  /** The commas of `rest` read while the quotes seen so far are even in number (starting
    * inside quotes when `inQuotes`): the commas that are not inside a quoted stretch. */
  function CommasOutsideQuotes(rest: string, inQuotes: bool): nat {
    if rest == [] then 0
    else
      var here := if rest[0] == ',' && !inQuotes then 1 else 0;
      here + CommasOutsideQuotes(rest[1..], if rest[0] == '"' then !inQuotes else inQuotes)
  }

  /** A line always has one field more than it has commas outside quotes; an escaped `""`
    * never changes which commas those are. */
  lemma {:induction false} ScanFieldCount(rest: string, st: Scan)
    ensures |ScanFrom(rest, st).fields| == |st.fields| + CommasOutsideQuotes(rest, st.inQuotes)
    decreases |rest|
  {
    if rest != [] {
      if rest[0] == '"' {
        if st.inQuotes && |rest| > 1 && rest[1] == '"' {
          ScanFieldCount(rest[2..], st.(current := st.current + "\""));
          assert rest[1..][1..] == rest[2..];
        } else {
          ScanFieldCount(rest[1..], st.(inQuotes := !st.inQuotes));
        }
      } else if rest[0] == ',' && !st.inQuotes {
        ScanFieldCount(rest[1..], Scan(st.fields + [Trim(st.current)], "", false));
      } else {
        ScanFieldCount(rest[1..], st.(current := st.current + [rest[0]]));
      }
    }
  }

  /** Inside quotes, text without a quote is copied into the current field, commas included. */
  lemma {:induction false} ScanInsideQuotes(c: string, rest: string, st: Scan)
    requires st.inQuotes && '"' !in c
    ensures ScanFrom(c + rest, st) == ScanFrom(rest, st.(current := st.current + c))
  {
    if c == [] {
      assert c + rest == rest;
      assert st.current + c == st.current;
    } else {
      assert c[0] in c;
      assert (c + rest)[0] == c[0] && (c + rest)[1..] == c[1..] + rest;
      var st' := st.(current := st.current + [c[0]]);
      assert ScanFrom(c + rest, st) == ScanFrom(c[1..] + rest, st');
      assert forall x :: x in c[1..] ==> x in c;
      ScanInsideQuotes(c[1..], rest, st');
      assert st.current + [c[0]] + c[1..] == st.current + c;
    }
  }

  /** A field written as `"c"` and followed by a comma or the end of the line is read back as `c`. */
  lemma ScanQuotedField(fields: seq<string>, c: string, tail: string)
    requires '"' !in c
    requires tail == [] || tail[0] == ','
    ensures ScanFrom("\"" + c + "\"" + tail, Scan(fields, "", false)) == ScanFrom(tail, Scan(fields, c, false))
  {
    var line := "\"" + c + "\"" + tail;
    var closing := "\"" + tail;
    assert line[0] == '"' && line[1..] == c + closing;
    assert ScanFrom(line, Scan(fields, "", false)) == ScanFrom(c + closing, Scan(fields, "", true));
    ScanInsideQuotes(c, closing, Scan(fields, "", true));
    assert "" + c == c;
    assert closing[0] == '"' && closing[1..] == tail;
    assert !(|closing| > 1 && closing[1] == '"');
    assert ScanFrom(closing, Scan(fields, c, true)) == ScanFrom(tail, Scan(fields, c, false));
  }

  // ---------------------------------------------------------------- headers and rows

  /** The header names `normalizeHeader` knows, with the row key each stands for. */
  const HeaderKeys: map<string, string> := map[
    "ID" := "id", "商品名" := "name", "品目名" := "name", "名前" := "name",
    "カテゴリ" := "category", "種類" := "category", "数量" := "quantity", "個数" := "quantity",
    "単位" := "unit", "消費期限" := "expirationDate", "賞味期限" := "expirationDate",
    "期限" := "expirationDate", "支店" := "branch", "拠点" := "branch",
    "保管場所" := "storageLocation", "営業所" := "storageLocation", "倉庫" := "storageLocation",
    "場所" := "location", "location" := "location", "寄贈済み" := "donated", "寄贈" := "donated",
    "備考" := "notes", "メモ" := "notes",
    "id" := "id", "name" := "name", "category" := "category", "quantity" := "quantity",
    "unit" := "unit", "expirationDate" := "expirationDate", "expiration_date" := "expirationDate",
    "branch" := "branch", "storageLocation" := "storageLocation",
    "storage_location" := "storageLocation", "donated" := "donated", "notes" := "notes"]

  /** The keys a row of stock data is read by. */
  predicate IsRowKey(k: string) {
    k == "id" || k == "name" || k == "category" || k == "quantity" || k == "unit"
    || k == "expirationDate" || k == "branch" || k == "storageLocation" || k == "location"
    || k == "donated" || k == "notes"
  }

  /** `normalizeHeader`: a known name (after trimming) maps to its key, anything else is
    * lower-cased with all white space removed. */
  function NormalizeHeader(header: string): string {
    if Trim(header) in HeaderKeys then HeaderKeys[Trim(header)] else SquashedLower(header)
  }

  /** An unknown header lower-cased with all white space removed. */
  function SquashedLower(header: string): string {
    ReplaceSpaceRuns(LowerAscii(header), "")
  }

  /** Every known header name maps to one of the row keys. */
  lemma KnownHeadersGiveRowKeys(header: string)
    requires Trim(header) in HeaderKeys
    ensures IsRowKey(NormalizeHeader(header))
  {
  }

  /** The squashed form has no white space and no upper-case ASCII letter, the other
    * characters kept in order. */
  lemma SquashedLowerShape(header: string)
    ensures var k := SquashedLower(header);
      k == NonSpace(LowerAscii(header))
      && (forall i :: 0 <= i < |k| ==> !IsJsSpace(k[i]) && !('A' <= k[i] <= 'Z'))
  {
    RemoveSpacesIsNonSpace(LowerAscii(header));
    NonSpaceHasNoSpace(LowerAscii(header));
    NonSpaceNoUpper(LowerAscii(header));
  }

  /** An unknown header comes out with no white space and no upper-case ASCII letter, its other
    * characters kept in order. */
  lemma UnknownHeaderNormalised(header: string)
    requires Trim(header) !in HeaderKeys
    ensures var k := NormalizeHeader(header);
      k == NonSpace(LowerAscii(header))
      && (forall i :: 0 <= i < |k| ==> !IsJsSpace(k[i]) && !('A' <= k[i] <= 'Z'))
  {
    SquashedLowerShape(header);
  }

  lemma {:induction false} NonSpaceNoUpper(s: string)
    requires forall i :: 0 <= i < |s| ==> !('A' <= s[i] <= 'Z')
    ensures forall i :: 0 <= i < |NonSpace(s)| ==> !('A' <= NonSpace(s)[i] <= 'Z')
  {
    if s != [] {
      NonSpaceNoUpper(s[1..]);
    }
  }

  /** `values[index] || ''`. */
  function ValueAt(values: seq<string>, index: nat): string {
    if index < |values| then values[index] else ""
  }

  /** The normalised form of each header, in order. */
  function RowKeys(headers: seq<string>): (keys: seq<string>)
    ensures |keys| == |headers|
    ensures forall j :: 0 <= j < |headers| ==> keys[j] == NormalizeHeader(headers[j])
  {
    seq(|headers|, j requires 0 <= j < |headers| => NormalizeHeader(headers[j]))
  }

  /** The record built by storing `values[j]` under `keys[j]` for j = 0, 1, ...: a later key
    * overwrites an earlier equal one. */
  function RowOf(keys: seq<string>, values: seq<string>): map<string, string> {
    if keys == [] then map[]
    else
      var n := |keys| - 1;
      RowOf(keys[..n], values)[keys[n] := ValueAt(values, n)]
  }

  /** The row `mapToRawRow` builds. */
  function RawRow(headers: seq<string>, values: seq<string>): map<string, string> {
    RowOf(RowKeys(headers), values)
  }

  /** `mapToRawRow`. */
  method MapToRawRow(headers: seq<string>, values: seq<string>) returns (row: map<string, string>)
    ensures row == RawRow(headers, values)
  {
    var keys := RowKeys(headers);
    row := map[];
    var i := 0;
    while i < |headers|
      invariant 0 <= i <= |headers|
      invariant row == RowOf(keys[..i], values)
    {
      assert keys[..i + 1][..i] == keys[..i];
      row := row[NormalizeHeader(headers[i]) := ValueAt(values, i)];
      i := i + 1;
    }
    assert keys[..|headers|] == keys;
  }

  /** Each key holds the value stored under its last occurrence. */
  lemma {:induction false} RowOfLastWins(keys: seq<string>, values: seq<string>, j: nat)
    requires j < |keys|
    requires forall k :: j < k < |keys| ==> keys[k] != keys[j]
    ensures keys[j] in RowOf(keys, values)
    ensures RowOf(keys, values)[keys[j]] == ValueAt(values, j)
  {
    var n := |keys| - 1;
    if j < n {
      RowOfLastWins(keys[..n], values, j);
    }
  }

  /** The record has exactly the given keys. */
  lemma {:induction false} RowOfKeys(keys: seq<string>, values: seq<string>)
    ensures RowOf(keys, values).Keys == set j | 0 <= j < |keys| :: keys[j]
  {
    if keys != [] {
      var n := |keys| - 1;
      RowOfKeys(keys[..n], values);
      assert (set j | 0 <= j < |keys| :: keys[j]) == (set j | 0 <= j < n :: keys[..n][j]) + {keys[n]};
    }
  }

  /** `mapToRawRow`'s record is keyed by exactly the normalised headers, each holding the value
    * in the column of the last header that normalises to it. */
  lemma RawRowSpec(headers: seq<string>, values: seq<string>, j: nat)
    requires j < |headers|
    requires forall k :: j < k < |headers| ==> NormalizeHeader(headers[k]) != NormalizeHeader(headers[j])
    ensures RawRow(headers, values).Keys == set k | 0 <= k < |headers| :: NormalizeHeader(headers[k])
    ensures RawRow(headers, values)[NormalizeHeader(headers[j])] == ValueAt(values, j)
  {
    var keys := RowKeys(headers);
    RowOfKeys(keys, values);
    RowOfLastWins(keys, values, j);
    assert (set k | 0 <= k < |keys| :: keys[k]) == set k | 0 <= k < |headers| :: NormalizeHeader(headers[k]);
  }

  /** The value of a row key, with a missing key read as the empty string (both are falsy). */
  function Field(row: map<string, string>, key: string): string {
    if key in row then row[key] else ""
  }

  /** The category labels and shorthands `normalizeCategory` knows. */
  const CategoryKeys: map<string, FoodCategory> := map[
    "水" := Water, "飲料" := Water, "水・飲料" := Water, "ドリンク" := Water,
    "米" := Staple, "パン" := Staple, "主食" := Staple, "主食（米・パン）" := Staple,
    "缶詰" := Canned, "レトルト" := Canned, "缶詰・レトルト" := Canned,
    "お菓子" := Snack, "栄養補助" := Snack, "お菓子・栄養補助" := Snack,
    "調味料" := Seasoning]

  /** `normalizeCategory`: a known label or shorthand, else その他. */
  function NormalizeCategory(category: string): FoodCategory {
    if category in CategoryKeys then CategoryKeys[category] else Other
  }

  /** Every category's own label is read back as that category, so a category survives being
    * written out by its label and read in again. */
  lemma NormalizeCategoryName(c: FoodCategory)
    ensures NormalizeCategory(CategoryName(c)) == c
  {
    match c
    case Water =>
    case Staple =>
    case Canned =>
    case Snack =>
    case Seasoning =>
    case Other =>
      assert CategoryName(Other) !in CategoryKeys;
  }

  /** The values that mark a row as donated. */
  predicate IsDonatedMark(v: string) {
    LowerAscii(v) == "true" || v == "○" || v == "1"
  }

  /** `convertToStockItem`: no row without a name; otherwise the row's fields with the defaults
    * filled in. `now` is the import time, `nextYear` the date a row without one expires on. */
  function ConvertRow(row: map<string, string>, rowIndex: nat, now: string, nextYear: string): (r: Option<StockItem>)
    ensures r.None? <==> Field(row, "name") == ""
    ensures r.Some? ==> r.value.name == Field(row, "name") && r.value.rowIndex == Some(rowIndex as int)
    ensures r.Some? ==> r.value.createdAt == r.value.updatedAt == Some(now)
  {
    var name := Field(row, "name");
    if name == "" then None
    else
      var legacy := Field(row, "location");
      var useLegacy := Field(row, "branch") == "" && legacy != "";
      var branch := if useLegacy then legacy else Field(row, "branch");
      var storage := if useLegacy then "デフォルト" else Field(row, "storageLocation");
      var notes := Field(row, "notes");
      Some(StockItem(
        id := OrStr(Field(row, "id"), "item-" + NatToString(rowIndex)),
        name := name,
        category := NormalizeCategory(Field(row, "category")),
        quantity := OrInt(ParseInt(Field(row, "quantity")), 1),
        unit := OrStr(Field(row, "unit"), "個"),
        expirationDate := NormalizeDate(Field(row, "expirationDate"), nextYear),
        branch := OrStr(branch, "本社"),
        storageLocation := OrStr(storage, "デフォルト"),
        donated := IsDonatedMark(Field(row, "donated")),
        notes := if notes == "" then None else Some(notes),
        serialNumber := None,
        createdAt := Some(now),
        updatedAt := Some(now),
        rowIndex := Some(rowIndex)))
  }

  /** The defaults a converted row receives: `item-<row>` for a missing id, 個 for a missing
    * unit, a legacy `location` as the branch with storage デフォルト, else 本社 and デフォルト;
    * the donated flag and the notes as the cells say, the normalised expiration date, and the
    * import time as both timestamps. */
  lemma ConvertRowDefaults(row: map<string, string>, rowIndex: nat, now: string, nextYear: string)
    requires Field(row, "name") != ""
    ensures var it := ConvertRow(row, rowIndex, now, nextYear).value;
      && it.id == OrStr(Field(row, "id"), "item-" + NatToString(rowIndex))
      && it.category == NormalizeCategory(Field(row, "category"))
      && it.unit == OrStr(Field(row, "unit"), "個")
      && it.quantity != 0
      && ((Field(row, "branch") == "" && Field(row, "location") != "") ==>
            (it.branch == Field(row, "location") && it.storageLocation == "デフォルト"))
      && (Field(row, "branch") != "" ==>
            (it.branch == Field(row, "branch") && it.storageLocation == OrStr(Field(row, "storageLocation"), "デフォルト")))
      && ((Field(row, "branch") == "" && Field(row, "location") == "") ==>
            (it.branch == "本社" && it.storageLocation == OrStr(Field(row, "storageLocation"), "デフォルト")))
      && (it.donated <==> IsDonatedMark(Field(row, "donated")))
      && (it.notes.None? <==> Field(row, "notes") == "")
      && (it.notes.Some? ==> it.notes.value == Field(row, "notes"))
      && it.expirationDate == NormalizeDate(Field(row, "expirationDate"), nextYear)
      && it.createdAt == it.updatedAt == Some(now)
      && it.serialNumber.None?
  {
  }

  /** A converted row expires on a `YYYY-MM-DD` date whenever its cell is empty or holds a date
    * in one of the accepted forms (and the fallback date is in that shape). */
  lemma ConvertedDateIsIso(row: map<string, string>, rowIndex: nat, now: string, nextYear: string)
    requires Field(row, "name") != "" && IsIsoDate(nextYear)
    requires var e := Field(row, "expirationDate");
      e == "" || SearchDate(e, 0, true).Some? || SearchDate(e, 0, false).Some?
    ensures IsIsoDate(ConvertRow(row, rowIndex, now, nextYear).value.expirationDate)
  {
    var e := Field(row, "expirationDate");
    if e != "" {
      var p := if SearchDate(e, 0, true).Some? then SearchDate(e, 0, true).value else SearchDate(e, 0, false).value;
      assert FormatIso(p) == FormatDate(p);
    }
  }

  /** The quantity is the number the cell starts with, or 1 when it has none or it is 0. */
  lemma ConvertRowQuantity(row: map<string, string>, rowIndex: nat, now: string, nextYear: string)
    requires Field(row, "name") != ""
    ensures var q := ParseInt(Field(row, "quantity"));
      ConvertRow(row, rowIndex, now, nextYear).value.quantity == if q.Some? && q.value != 0 then q.value else 1
  {
  }

  /** The items of `rows`, the first read from line `from`: rows without a name dropped,
    * order kept. */
  function ConvertRows(rows: seq<map<string, string>>, from: nat, now: string, nextYear: string): (r: seq<StockItem>)
    ensures |r| <= |rows|
    ensures forall k :: 0 <= k < |r| ==> (r[k].name != "" && RowIndexIn(r[k], from, from + |rows|))
    ensures forall k :: 0 <= k < |r| - 1 ==> RowIndex(r[k]) < RowIndex(r[k + 1])
    decreases |rows|
  {
    if rows == [] then []
    else
      var rest := ConvertRows(rows[1..], from + 1, now, nextYear);
      var item := ConvertRow(rows[0], from, now, nextYear);
      if item.Some? then
        assert item.value.rowIndex == Some(from as int);
        [item.value] + rest
      else rest
  }

  /** The line a stock row was read from, -1 for a row not read from a file. */
  function RowIndex(item: StockItem): int {
    if item.rowIndex.Some? then item.rowIndex.value else -1
  }

  predicate RowIndexIn(item: StockItem, lo: int, hi: int) {
    item.rowIndex.Some? && lo <= item.rowIndex.value < hi
  }

  /** The lines of a CSV text: the trimmed text split at line feeds. */
  function Lines(text: string): seq<string> {
    Split(Trim(text), '\n')
  }

  /** The raw row of every data line under `headers`, in order. */
  function RawRows(headers: seq<string>, lines: seq<string>): (rows: seq<map<string, string>>)
    ensures |rows| == |lines|
  {
    if lines == [] then [] else [RawRow(headers, ParseLine(lines[0]))] + RawRows(headers, lines[1..])
  }

  /** The items `parseCSV` returns: none unless there is a header line and at least one more;
    * line i (counting the header as line 0) can only give the item of row index i. */
  function ParseCsvItems(text: string, now: string, nextYear: string): (r: seq<StockItem>)
    ensures |Lines(text)| < 2 ==> r == []
    ensures |r| < |Lines(text)|
    ensures forall k :: 0 <= k < |r| ==> r[k].name != "" && RowIndexIn(r[k], 1, |Lines(text)|)
  {
    var lines := Lines(text);
    if |lines| < 2 then [] else ConvertRows(RawRows(ParseLine(lines[0]), lines[1..]), 1, now, nextYear)
  }

  /** The item line `i` gives: none, or the one its row converts to. */
  function LineItems(headers: seq<string>, line: string, i: nat, now: string, nextYear: string): seq<StockItem> {
    var item := ConvertRow(RawRow(headers, ParseLine(line)), i, now, nextYear);
    if item.Some? then [item.value] else []
  }

  /** The items of the lines from `i` on, line by line. */
  function ItemsFrom(headers: seq<string>, lines: seq<string>, i: nat, now: string, nextYear: string): seq<StockItem>
    requires i <= |lines|
    decreases |lines| - i
  {
    if i == |lines| then [] else LineItems(headers, lines[i], i, now, nextYear) + ItemsFrom(headers, lines, i + 1, now, nextYear)
  }

  /** Line by line, the items are those of the raw rows from line `i` on. */
  lemma {:induction false} ItemsFromRows(headers: seq<string>, lines: seq<string>, i: nat, now: string, nextYear: string)
    requires i <= |lines|
    ensures ItemsFrom(headers, lines, i, now, nextYear) == ConvertRows(RawRows(headers, lines[i..]), i, now, nextYear)
    decreases |lines| - i
  {
    if i < |lines| {
      ItemsFromRows(headers, lines, i + 1, now, nextYear);
      assert lines[i..][1..] == lines[i + 1..];
    }
  }

  /** With a header line and more, the items are those of the lines after the header. */
  lemma ParseCsvItemsByLine(text: string, now: string, nextYear: string)
    requires |Lines(text)| >= 2
    ensures ParseCsvItems(text, now, nextYear) == ItemsFrom(ParseLine(Lines(text)[0]), Lines(text), 1, now, nextYear)
  {
    ItemsFromRows(ParseLine(Lines(text)[0]), Lines(text), 1, now, nextYear);
  }

  /** One turn of `parseCSV`'s loop: the item line `i` adds, if any, ahead of those of the
    * lines after it. */
  method ReadLine(headers: seq<string>, lines: seq<string>, i: nat, now: string, nextYear: string) returns (added: seq<StockItem>)
    requires i < |lines|
    ensures ItemsFrom(headers, lines, i, now, nextYear) == added + ItemsFrom(headers, lines, i + 1, now, nextYear)
  {
    added := [];
    var values := ParseCsvLine(lines[i]);
    if |values| != 0 {
      var row := MapToRawRow(headers, values);
      var item := ConvertRow(row, i, now, nextYear);
      if item.Some? {
        added := [item.value];
      }
    }
  }

  /** `parseCSV`. */
  method ParseCsv(text: string, now: string, nextYear: string) returns (items: seq<StockItem>)
    ensures items == ParseCsvItems(text, now, nextYear)
  {
    var lines := Lines(text);
    if |lines| < 2 {
      return [];
    }
    var headers := ParseCsvLine(lines[0]);
    items := [];
    var i := 1;
    while i < |lines|
      invariant 1 <= i <= |lines|
      invariant items + ItemsFrom(headers, lines, i, now, nextYear) == ItemsFrom(headers, lines, 1, now, nextYear)
    {
      var added := ReadLine(headers, lines, i, now, nextYear);
      items := items + added;
      i := i + 1;
    }
    ParseCsvItemsByLine(text, now, nextYear);
  }

  // ---------------------------------------------------------------- dates

  /** The three captured groups of a date match. */
  datatype DateParts = DateParts(year: string, month: string, day: string)

  /** Number of consecutive digits at `s[i..]`, at most `max`: what a greedy `\d{1,max}` takes. */
  function DigitRun(s: string, i: nat, max: nat): (k: nat)
    ensures k <= max
    ensures k > 0 ==> i + k <= |s|
    ensures forall j :: i <= j < i + k ==> IsDigit(s[j])
    ensures k < max && i + k < |s| ==> !IsDigit(s[i + k])
    decreases max
  {
    if max == 0 || i >= |s| || !IsDigit(s[i]) then 0 else 1 + DigitRun(s, i + 1, max - 1)
  }

  /** The separators the year-first pattern accepts after the year, and after the month. */
  predicate YearSep(c: char) { c == '-' || c == '/' || c == '年' }
  predicate MonthSep(c: char) { c == '-' || c == '/' || c == '月' }

  /** The separators of the year-last pattern. */
  predicate DateSep(c: char) { c == '-' || c == '/' }

  /** `(\d{4})[-/年](\d{1,2})[-/月](\d{1,2})日?` matched at position `i`. */
  function YearFirstAt(s: string, i: nat): Option<DateParts> {
    if DigitRun(s, i, 4) == 4 && i + 4 < |s| && YearSep(s[i + 4]) then
      var m := DigitRun(s, i + 5, 2);
      var j := i + 5 + m;
      if m >= 1 && j < |s| && MonthSep(s[j]) then
        var d := DigitRun(s, j + 1, 2);
        if d >= 1 then Some(DateParts(s[i..i + 4], s[i + 5..j], s[j + 1..j + 1 + d])) else None
      else None
    else None
  }

  /** `(\d{1,2})[-/](\d{1,2})[-/](\d{4})` matched at position `i`; groups are month, day, year. */
  function YearLastAt(s: string, i: nat): Option<DateParts> {
    var a := DigitRun(s, i, 2);
    var j := i + a;
    if a >= 1 && j < |s| && DateSep(s[j]) then
      var b := DigitRun(s, j + 1, 2);
      var k := j + 1 + b;
      if b >= 1 && k < |s| && DateSep(s[k]) && DigitRun(s, k + 1, 4) == 4 then
        Some(DateParts(s[k + 1..k + 5], s[i..j], s[j + 1..k]))
      else None
    else None
  }

  /** The match of one of the two patterns at position `i`. */
  function MatchAt(s: string, i: nat, yearFirst: bool): Option<DateParts> {
    if yearFirst then YearFirstAt(s, i) else YearLastAt(s, i)
  }

  /** The leftmost match at or after `i` of the year-first pattern, or of the year-last one. */
  function SearchDate(s: string, i: nat, yearFirst: bool): (r: Option<DateParts>)
    ensures r.Some? ==> WellShaped(r.value)
    ensures r.None? <==> forall j :: i <= j < |s| ==> MatchAt(s, j, yearFirst).None?
    ensures r.Some? ==> exists j :: i <= j < |s| && MatchAt(s, j, yearFirst) == r
                                  && forall k :: i <= k < j ==> MatchAt(s, k, yearFirst).None?
    decreases |s| - i
  {
    if i >= |s| then None
    else
      var here := MatchAt(s, i, yearFirst);
      if here.Some? then here else SearchDate(s, i + 1, yearFirst)
  }

  /** A four-digit year and a month and day of one or two digits. */
  predicate WellShaped(p: DateParts) {
    |p.year| == 4 && AllDigits(p.year)
    && 1 <= |p.month| <= 2 && AllDigits(p.month)
    && 1 <= |p.day| <= 2 && AllDigits(p.day)
  }

  /** A date in the `YYYY-MM-DD` shape. */
  predicate IsIsoDate(t: string) {
    |t| == 10 && t[4] == '-' && t[7] == '-'
    && forall j :: 0 <= j < 10 && j != 4 && j != 7 ==> IsDigit(t[j])
  }

  function FormatDate(p: DateParts): string {
    p.year + "-" + PadStart(p.month, 2, '0') + "-" + PadStart(p.day, 2, '0')
  }

  /** `normalizeDate`: `nextYear` for an empty value, the first year-first date found, else the
    * first year-last date found, each written as `YYYY-MM-DD`; any other text is kept. */
  function NormalizeDate(s: string, nextYear: string): (r: string)
    ensures s == "" ==> r == nextYear
    ensures s != "" ==> r == s || IsIsoDate(r)
    ensures SearchDate(s, 0, true).Some? ==> r == FormatDate(SearchDate(s, 0, true).value)
    ensures SearchDate(s, 0, true).None? && SearchDate(s, 0, false).Some? ==>
      r == FormatDate(SearchDate(s, 0, false).value)
    ensures s != "" && SearchDate(s, 0, true).None? && SearchDate(s, 0, false).None? ==> r == s
  {
    if s == "" then nextYear
    else
      match SearchDate(s, 0, true)
      case Some(p) => FormatIso(p)
      case None =>
        match SearchDate(s, 0, false)
        case Some(p) => FormatIso(p)
        case None => s
  }

  function FormatIso(p: DateParts): (r: string)
    requires WellShaped(p)
    ensures r == FormatDate(p) && IsIsoDate(r)
  {
    var m := PadTwo(p.month);
    var d := PadTwo(p.day);
    var r := p.year + "-" + m + "-" + d;
    assert forall j :: 0 <= j < 4 ==> r[j] == p.year[j];
    assert r[5] == m[0] && r[6] == m[1] && r[8] == d[0] && r[9] == d[1];
    r
  }

  /** `padStart(2, '0')` of one or two digits: two digits. */
  function PadTwo(x: string): (r: string)
    requires 1 <= |x| <= 2 && AllDigits(x)
    ensures r == PadStart(x, 2, '0') && |r| == 2 && AllDigits(r)
  {
    if |x| == 1 then
      assert PadStart(x, 2, '0') == PadStart(['0'] + x, 2, '0') == ['0'] + x;
      ['0'] + x
    else x
  }

  /** A date already in `YYYY-MM-DD` shape is left as it is. */
  lemma IsoDateFixed(t: string, nextYear: string)
    requires IsIsoDate(t)
    ensures NormalizeDate(t, nextYear) == t
  {
    assert DigitRun(t, 0, 4) == 4;
    assert DigitRun(t, 5, 2) == 2;
    assert DigitRun(t, 8, 2) == 2;
    var p := DateParts(t[0..4], t[5..7], t[8..10]);
    assert YearFirstAt(t, 0) == Some(p);
    assert FormatDate(p) == t[0..4] + "-" + t[5..7] + "-" + t[8..10];
    assert t == t[0..4] + "-" + t[5..7] + "-" + t[8..10];
  }

  /** Normalising twice gives the same as normalising once, when the fallback date is itself in
    * `YYYY-MM-DD` shape. */
  lemma NormalizeDateIdempotent(s: string, nextYear: string)
    requires IsIsoDate(nextYear)
    ensures NormalizeDate(NormalizeDate(s, nextYear), nextYear) == NormalizeDate(s, nextYear)
  {
    var r := NormalizeDate(s, nextYear);
    if IsIsoDate(r) {
      IsoDateFixed(r, nextYear);
    } else if s != "" {
      assert r == s;
    }
  }
  /** A run of exactly `n` digits at `i`, ended by the bound, the end of the text or a non-digit,
    * is what `DigitRun` takes. */
  lemma {:induction false} DigitRunOf(s: string, i: nat, n: nat, max: nat)
    requires n <= max && i + n <= |s|
    requires forall j :: i <= j < i + n ==> IsDigit(s[j])
    requires n == max || i + n == |s| || !IsDigit(s[i + n])
    ensures DigitRun(s, i, max) == n
    decreases n
  {
    if n > 0 {
      DigitRunOf(s, i + 1, n - 1, max - 1);
    }
  }

  /** Where the three numbers and two separators of a written date sit. */
  lemma DateLayout(a: string, c: char, b: string, c': char, e: string, rest: string)
    ensures var s := a + [c] + b + [c'] + e + rest;
      var j := |a| + 1 + |b|;
      |s| == j + 1 + |e| + |rest| && s[|a|] == c && s[j] == c'
      && s[0..|a|] == a && s[|a| + 1..j] == b && s[j + 1..j + 1 + |e|] == e
      && (AllDigits(a) ==> forall t :: 0 <= t < |a| ==> IsDigit(s[t]))
      && (AllDigits(b) ==> forall t :: |a| + 1 <= t < j ==> IsDigit(s[t]))
      && (AllDigits(e) ==> forall t :: j + 1 <= t < j + 1 + |e| ==> IsDigit(s[t]))
      && (rest != [] ==> s[j + 1 + |e|] == rest[0])
  {
    var s := a + [c] + b + [c'] + e + rest;
    var j := |a| + 1 + |b|;
    assert s == (a + [c] + b + [c'] + e) + rest;
    assert s[0..|a|] == a;
    assert s[|a| + 1..j] == b;
    assert s[j + 1..j + 1 + |e|] == e;
  }

  /** The year-first pattern at the start of `s`, given where its parts sit. */
  lemma YearFirstMatch(s: string, lm: nat, ld: nat)
    requires 1 <= lm <= 2 && 1 <= ld <= 2 && 6 + lm + ld <= |s|
    requires forall t :: 0 <= t < 4 ==> IsDigit(s[t])
    requires YearSep(s[4])
    requires forall t :: 5 <= t < 5 + lm ==> IsDigit(s[t])
    requires MonthSep(s[5 + lm])
    requires forall t :: 6 + lm <= t < 6 + lm + ld ==> IsDigit(s[t])
    requires ld == 2 || |s| == 6 + lm + ld || !IsDigit(s[6 + lm + ld])
    ensures YearFirstAt(s, 0) == Some(DateParts(s[0..4], s[5..5 + lm], s[6 + lm..6 + lm + ld]))
  {
    DigitRunOf(s, 0, 4, 4);
    DigitRunOf(s, 5, lm, 2);
    DigitRunOf(s, 6 + lm, ld, 2);
    YearFirstFromRuns(s, lm, ld);
  }

  /** The year-first pattern read off the digit runs and separators at the start of `s`. */
  lemma YearFirstFromRuns(s: string, lm: nat, ld: nat)
    requires 1 <= lm <= 2 && 1 <= ld <= 2 && 6 + lm + ld <= |s|
    requires DigitRun(s, 0, 4) == 4 && YearSep(s[4])
    requires DigitRun(s, 5, 2) == lm && MonthSep(s[5 + lm])
    requires DigitRun(s, 6 + lm, 2) == ld
    ensures YearFirstAt(s, 0) == Some(DateParts(s[0..4], s[5..5 + lm], s[6 + lm..6 + lm + ld]))
  {
  }

  /** The year-last pattern at the start of `s`, given where its parts sit. */
  lemma YearLastMatch(s: string, lm: nat, ld: nat)
    requires 1 <= lm <= 2 && 1 <= ld <= 2 && lm + ld + 6 <= |s|
    requires forall t :: 0 <= t < lm ==> IsDigit(s[t])
    requires DateSep(s[lm])
    requires forall t :: lm + 1 <= t < lm + 1 + ld ==> IsDigit(s[t])
    requires DateSep(s[lm + 1 + ld])
    requires forall t :: lm + ld + 2 <= t < lm + ld + 6 ==> IsDigit(s[t])
    ensures YearLastAt(s, 0) == Some(DateParts(s[lm + ld + 2..lm + ld + 6], s[0..lm], s[lm + 1..lm + 1 + ld]))
  {
    DigitRunOf(s, 0, lm, 2);
    DigitRunOf(s, lm + 1, ld, 2);
    DigitRunOf(s, lm + ld + 2, 4, 4);
    YearLastFromRuns(s, lm, ld);
  }

  /** The year-last pattern read off the digit runs and separators at the start of `s`. */
  lemma YearLastFromRuns(s: string, lm: nat, ld: nat)
    requires 1 <= lm <= 2 && 1 <= ld <= 2 && lm + ld + 6 <= |s|
    requires DigitRun(s, 0, 2) == lm && DateSep(s[lm])
    requires DigitRun(s, lm + 1, 2) == ld && DateSep(s[lm + 1 + ld])
    requires DigitRun(s, lm + ld + 2, 4) == 4
    ensures YearLastAt(s, 0) == Some(DateParts(s[lm + ld + 2..lm + ld + 6], s[0..lm], s[lm + 1..lm + 1 + ld]))
  {
  }

  /** `Y-M-D`, `Y/M/D` and `Y年M月D日` at the start of a value give the year, month and day as
    * written, whatever follows the day (a day of one digit must not run into another digit). */
  lemma YearFirstParts(y: string, c: char, m: string, c': char, d: string, rest: string)
    requires |y| == 4 && AllDigits(y) && 1 <= |m| <= 2 && AllDigits(m) && 1 <= |d| <= 2 && AllDigits(d)
    requires YearSep(c) && MonthSep(c')
    requires |d| == 2 || rest == [] || !IsDigit(rest[0])
    ensures YearFirstAt(y + [c] + m + [c'] + d + rest, 0) == Some(DateParts(y, m, d))
  {
    DateLayout(y, c, m, c', d, rest);
    YearFirstMatch(y + [c] + m + [c'] + d + rest, |m|, |d|);
  }

  /** `M/D/Y` and `M-D-Y` at the start of a value give the year, month and day as written. */
  lemma YearLastParts(m: string, c: char, d: string, c': char, y: string, rest: string)
    requires 1 <= |m| <= 2 && AllDigits(m) && 1 <= |d| <= 2 && AllDigits(d) && |y| == 4 && AllDigits(y)
    requires DateSep(c) && DateSep(c')
    ensures YearLastAt(m + [c] + d + [c'] + y + rest, 0) == Some(DateParts(y, m, d))
  {
    DateLayout(m, c, d, c', y, rest);
    YearLastMatch(m + [c] + d + [c'] + y + rest, |m|, |d|);
  }

  /** A value starting with a year-first date normalises to that date, zero-padded. */
  lemma NormalizeYearFirst(y: string, c: char, m: string, c': char, d: string, rest: string, nextYear: string)
    requires |y| == 4 && AllDigits(y) && 1 <= |m| <= 2 && AllDigits(m) && 1 <= |d| <= 2 && AllDigits(d)
    requires YearSep(c) && MonthSep(c')
    requires |d| == 2 || rest == [] || !IsDigit(rest[0])
    ensures NormalizeDate(y + [c] + m + [c'] + d + rest, nextYear)
            == y + "-" + PadStart(m, 2, '0') + "-" + PadStart(d, 2, '0')
  {
    YearFirstParts(y, c, m, c', d, rest);
    assert MatchAt(y + [c] + m + [c'] + d + rest, 0, true) == Some(DateParts(y, m, d));
  }

  /** A value that is exactly a year-last date normalises to it, zero-padded and year first. */
  lemma NormalizeYearLast(m: string, c: char, d: string, c': char, y: string, nextYear: string)
    requires 1 <= |m| <= 2 && AllDigits(m) && 1 <= |d| <= 2 && AllDigits(d) && |y| == 4 && AllDigits(y)
    requires DateSep(c) && DateSep(c')
    ensures NormalizeDate(m + [c] + d + [c'] + y, nextYear)
            == y + "-" + PadStart(m, 2, '0') + "-" + PadStart(d, 2, '0')
  {
    var s := m + [c] + d + [c'] + y;
    YearLastParts(m, c, d, c', y, []);
    assert s + [] == s;
    assert MatchAt(s, 0, false) == Some(DateParts(y, m, d));
    forall j | 0 <= j < |s|
      ensures MatchAt(s, j, true).None?
    {
      NoYearFirstAt(m, c, d, c', y, j);
    }
  }

  /** No four-digit year followed by a character starts anywhere in `M/D/Y`: every window of four
    * before the year holds a separator. */
  lemma NoYearFirstAt(m: string, c: char, d: string, c': char, y: string, j: nat)
    requires 1 <= |m| <= 2 && 1 <= |d| <= 2 && |y| == 4
    requires DateSep(c) && DateSep(c')
    ensures YearFirstAt(m + [c] + d + [c'] + y, j).None?
  {
    var s := m + [c] + d + [c'] + y;
    if j + 4 < |s| {
      var sep := if j <= |m| then |m| else |m| + 1 + |d|;
      assert j <= sep < j + 4 && !IsDigit(s[sep]);
    }
  }
}

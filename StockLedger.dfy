/** The stock ledger of the stockpile app's main screen: moving stock between branches and
  * storage places with an audit log, the per-branch row counts, and the stock CSV export. */
module StockLedger {
  import opened Wrappers
  import opened SeqUtil
  import opened Strings
  import opened StockTypes
  import opened CsvParser
  import opened CsvExport

  /** The operator recorded on every move. */
  const CurrentOperator := "管理者"

  /** The rows are looked up by id. */
  function HasId(itemId: string): StockItem -> bool {
    (i: StockItem) => i.id == itemId
  }

  /** Sum of the quantities of all rows. */
  function TotalQuantity(items: seq<StockItem>): int {
    if items == [] then 0 else TotalQuantity(items[..|items| - 1]) + items[|items| - 1].quantity
  }

  lemma TotalQuantityAppend(items: seq<StockItem>, x: StockItem)
    ensures TotalQuantity(items + [x]) == TotalQuantity(items) + x.quantity
  {
    assert (items + [x])[..|items|] == items;
  }

  /** Replacing one row changes the total by the difference of the two quantities. */
  lemma {:induction false} TotalQuantityUpdate(items: seq<StockItem>, i: nat, x: StockItem)
    requires i < |items|
    ensures TotalQuantity(items[i := x]) == TotalQuantity(items) - items[i].quantity + x.quantity
    decreases |items|
  {
    var n := |items| - 1;
    if i == n {
      assert items[i := x][..n] == items[..n];
    } else {
      assert items[i := x][..n] == items[..n][i := x];
      TotalQuantityUpdate(items[..n], i, x);
    }
  }

  /** The rows after `handleMove(itemId, quantity, toBranch, toStorage)` at instant `now`
    * (milliseconds, written `nowIso` as an ISO timestamp): a request for at least the row's
    * balance relocates the row itself; a smaller one leaves the rest behind and appends a
    * copy, id `<id>-moved-<now>`, holding the moved quantity at the destination. */
  function Move(items: seq<StockItem>, itemId: string, quantity: int, toBranch: string, toStorage: string,
                now: nat, nowIso: string): (r: seq<StockItem>)
    ensures FindIndex(items, HasId(itemId)) == -1 ==> r == items
    ensures |r| == |items| || |r| == |items| + 1
    ensures forall j :: 0 <= j < |items| && j != FindIndex(items, HasId(itemId)) ==> r[j] == items[j]
  {
    var index := FindIndex(items, HasId(itemId));
    if index == -1 then items
    else
      var current := items[index];
      if quantity >= current.quantity then
        items[index := Relocated(current, toBranch, toStorage, nowIso)]
      else
        items[index := Reduced(current, quantity, nowIso)] + [MovedPart(current, quantity, toBranch, toStorage, now, nowIso)]
  }

  /** The row itself at the destination. */
  function Relocated(current: StockItem, toBranch: string, toStorage: string, nowIso: string): StockItem {
    current.(branch := toBranch, storageLocation := toStorage, updatedAt := Some(nowIso))
  }

  /** What stays behind after a partial move. */
  function Reduced(current: StockItem, quantity: int, nowIso: string): StockItem {
    current.(quantity := current.quantity - quantity, updatedAt := Some(nowIso))
  }

  /** The new row a partial move appends. */
  function MovedPart(current: StockItem, quantity: int, toBranch: string, toStorage: string, now: nat, nowIso: string): StockItem {
    current.(id := current.id + "-moved-" + IntToString(now), quantity := quantity,
             branch := toBranch, storageLocation := toStorage,
             createdAt := Some(nowIso), updatedAt := Some(nowIso))
  }

  /** A move never creates or destroys stock: the total quantity over all rows is the same
    * before and after, whatever the request. */
  lemma MoveConservesTotal(items: seq<StockItem>, itemId: string, quantity: int, toBranch: string, toStorage: string,
                           now: nat, nowIso: string)
    ensures TotalQuantity(Move(items, itemId, quantity, toBranch, toStorage, now, nowIso)) == TotalQuantity(items)
  {
    var index := FindIndex(items, HasId(itemId));
    if index != -1 {
      var current := items[index];
      if quantity >= current.quantity {
        TotalQuantityUpdate(items, index, Relocated(current, toBranch, toStorage, nowIso));
      } else {
        var rest := Reduced(current, quantity, nowIso);
        TotalQuantityUpdate(items, index, rest);
        TotalQuantityAppend(items[index := rest], MovedPart(current, quantity, toBranch, toStorage, now, nowIso));
      }
    }
  }


  /** A request for at least the balance moves the row itself: same place in the list, same
    * id and quantity, new branch and storage, and no row added. */
  lemma MoveFullRelocates(items: seq<StockItem>, itemId: string, quantity: int, toBranch: string, toStorage: string,
                          now: nat, nowIso: string, index: nat)
    requires index < |items| && items[index].id == itemId
    requires forall j :: 0 <= j < index ==> items[j].id != itemId
    requires quantity >= items[index].quantity
    ensures var r := Move(items, itemId, quantity, toBranch, toStorage, now, nowIso);
      |r| == |items| && r[index].id == itemId && r[index].quantity == items[index].quantity
      && r[index].branch == toBranch && r[index].storageLocation == toStorage
      && r[index].name == items[index].name && r[index].category == items[index].category
  {
    assert FindIndex(items, HasId(itemId)) == index;
  }

  /** A request below the balance leaves the balance minus the request in the row and appends
    * exactly one row at the end: the moved quantity at the destination under a derived id,
    * every other field copied from the row. */
  lemma MovePartialSplits(items: seq<StockItem>, itemId: string, quantity: int, toBranch: string, toStorage: string,
                          now: nat, nowIso: string, index: nat)
    requires index < |items| && items[index].id == itemId
    requires forall j :: 0 <= j < index ==> items[j].id != itemId
    requires quantity < items[index].quantity
    ensures var r := Move(items, itemId, quantity, toBranch, toStorage, now, nowIso);
      |r| == |items| + 1
      && r[index] == items[index].(quantity := items[index].quantity - quantity, updatedAt := Some(nowIso))
      && r[|items|].id == itemId + "-moved-" + IntToString(now)
      && r[|items|].quantity == quantity
      && r[|items|].branch == toBranch && r[|items|].storageLocation == toStorage
      && r[|items|].name == items[index].name && r[|items|].category == items[index].category
      && r[|items|].expirationDate == items[index].expirationDate && r[|items|].unit == items[index].unit
      && r[|items|].donated == items[index].donated && r[|items|].notes == items[index].notes
  {
    assert FindIndex(items, HasId(itemId)) == index;
  }

  /** The log entry of a move of `item`: the row as it was before the move, and the request. */
  function LogFor(item: StockItem, quantity: int, toBranch: string, toStorage: string, now: nat, nowIso: string): MoveLog {
    MoveLog("log-" + IntToString(now), nowIso, CurrentOperator, item.id, item.name, CategoryName(item.category),
            quantity, item.unit, item.branch, item.storageLocation, toBranch, toStorage, None)
  }

  /** The main screen's stock rows and move log. */
  class Ledger {
    var items: seq<StockItem>
    var moveLogs: seq<MoveLog>

    constructor(initial: seq<StockItem>)
      ensures items == initial && moveLogs == []
    {
      items := initial;
      moveLogs := [];
    }

    /** `handleMove`: an unknown id changes nothing; otherwise one log entry is put in front of
      * the log and the rows become `Move` of the old rows. */
    method HandleMove(itemId: string, quantity: int, toBranch: string, toStorage: string, now: nat, nowIso: string)
      modifies this
      ensures var index := FindIndex(old(items), HasId(itemId));
        if index == -1 then items == old(items) && moveLogs == old(moveLogs)
        else
          && moveLogs == [LogFor(old(items)[index], quantity, toBranch, toStorage, now, nowIso)] + old(moveLogs)
          && moveLogs[0].itemId == itemId && moveLogs[0].operator == CurrentOperator
          && moveLogs[0].quantity == quantity && moveLogs[0].fromBranch == old(items)[index].branch
          && items == Move(old(items), itemId, quantity, toBranch, toStorage, now, nowIso)
      ensures TotalQuantity(items) == TotalQuantity(old(items))
    {
      var found := FindIndex(items, HasId(itemId));
      if found == -1 {
        MoveConservesTotal(items, itemId, quantity, toBranch, toStorage, now, nowIso);
        return;
      }
      var item := items[found];
      var log := MoveLog("log-" + IntToString(now), nowIso, CurrentOperator, item.id, item.name,
                         CategoryName(item.category), quantity, item.unit, item.branch, item.storageLocation,
                         toBranch, toStorage, None);
      assert log == LogFor(item, quantity, toBranch, toStorage, now, nowIso);
      moveLogs := [log] + moveLogs;

      var newItems := items;
      var index := FindIndex(newItems, HasId(itemId));
      var current := newItems[index];
      if quantity >= current.quantity {
        newItems := newItems[index := current.(branch := toBranch, storageLocation := toStorage, updatedAt := Some(nowIso))];
      } else {
        newItems := newItems[index := current.(quantity := current.quantity - quantity, updatedAt := Some(nowIso))];
        newItems := newItems + [current.(id := current.id + "-moved-" + IntToString(now), quantity := quantity,
                                         branch := toBranch, storageLocation := toStorage,
                                         createdAt := Some(nowIso), updatedAt := Some(nowIso))];
      }
      assert index == found;
      assert newItems == Move(items, itemId, quantity, toBranch, toStorage, now, nowIso);
      MoveConservesTotal(items, itemId, quantity, toBranch, toStorage, now, nowIso);
      items := newItems;
    }
  }

  // ---------------------------------------------------------------- rows per branch

  /** Live (not donated) rows of branch `b`. */
  function LiveInBranch(b: string): StockItem -> bool {
    (i: StockItem) => !i.donated && i.branch == b
  }

  /** The per-branch counts of live rows, built row by row as `itemCountByBranch` does. */
  function BranchCounts(items: seq<StockItem>): map<string, int> {
    if items == [] then map[]
    else
      var counts := BranchCounts(items[..|items| - 1]);
      var item := items[|items| - 1];
      if item.donated then counts
      else counts[item.branch := (if item.branch in counts then counts[item.branch] else 0) + 1]
  }

  /** Every branch with a live row has an entry, and the entry is the number of its live rows. */
  lemma {:induction false} BranchCountsCount(items: seq<StockItem>, b: string)
    ensures b in BranchCounts(items) <==> Count(items, LiveInBranch(b)) > 0
    ensures b in BranchCounts(items) ==> BranchCounts(items)[b] == Count(items, LiveInBranch(b))
    decreases |items|
  {
    if items != [] {
      var n := |items| - 1;
      BranchCountsCount(items[..n], b);
      CountSnoc(items, LiveInBranch(b));
    }
  }

  /** `itemCountByBranch`: for every branch, the number of rows of it that are not donated;
    * branches without such rows have no entry. */
  method ItemCountByBranch(items: seq<StockItem>) returns (counts: map<string, int>)
    ensures counts == BranchCounts(items)
    ensures forall b :: b in counts <==> Count(items, LiveInBranch(b)) > 0
    ensures forall b :: b in counts ==> counts[b] == Count(items, LiveInBranch(b))
  {
    counts := map[];
    var i := 0;
    while i < |items|
      invariant 0 <= i <= |items|
      invariant counts == BranchCounts(items[..i])
    {
      var item := items[i];
      assert items[..i + 1][..i] == items[..i];
      if !item.donated {
        counts := counts[item.branch := (if item.branch in counts then counts[item.branch] else 0) + 1];
      }
      i := i + 1;
    }
    assert items[..i] == items;
    forall b {
      BranchCountsCount(items, b);
    }
  }

  // ---------------------------------------------------------------- CSV export

  /** The column names of the stock export. */
  const StockHeaders := ["ID", "品目名", "カテゴリ", "数量", "単位", "消費期限", "支店", "保管場所", "備考"]

  /** The cells of one stock row in the export, a missing note as an empty cell. */
  function StockRow(item: StockItem): (cells: seq<string>)
    ensures |cells| == |StockHeaders|
  {
    [item.id, item.name, CategoryName(item.category), IntToString(item.quantity), item.unit,
     item.expirationDate, item.branch, item.storageLocation, OptOrStr(item.notes, "")]
  }

  function StockRows(items: seq<StockItem>): (rows: seq<seq<string>>)
    ensures |rows| == |items|
    ensures forall k :: 0 <= k < |items| ==> rows[k] == StockRow(items[k])
  {
    if items == [] then [] else [StockRow(items[0])] + StockRows(items[1..])
  }

  /** The text `exportStockCSV` saves, after its byte-order mark. */
  function StockCsvContent(items: seq<StockItem>): string {
    ExportContent(StockHeaders, StockRows(items))
  }

  /** The stock export splits back into the header line and one line per row in order, and each
    * data line reads back as that row's nine cells, as long as no cell holds a line feed or a
    * quote or has surrounding white space. */
  lemma StockCsvRoundTrip(items: seq<StockItem>)
    requires forall k :: 0 <= k < |items| ==> CleanRow(StockRow(items[k]))
    ensures var lines := Split(StockCsvContent(items), '\n');
      |lines| == |items| + 1 && lines[0] == Join(StockHeaders, ",")
      && forall k :: 0 <= k < |items| ==> ParseLine(lines[k + 1]) == StockRow(items[k])
  {
    JoinAvoids(StockHeaders, ",", '\n');
    ExportRoundTrip(StockHeaders, StockRows(items));
  }
}

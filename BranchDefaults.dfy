/** The branch settings: the built-in configuration of the seven branches, the lookup that falls
  * back to a generated default, and the extraction of branch settings from stock rows. */
module BranchDefaults {
  import opened SeqUtil
  import opened Strings
  import opened StockTypes

  /** The storage places every built-in branch has. */
  const StandardStorageLocations := ["支店事務所", "倉庫A", "倉庫B", "倉庫C", "倉庫D"]

  /** The built-in branches in the order the configuration lists them. */
  const DefaultBranchList := [
    BranchConfig("honten", "本店", 100, 3, StandardStorageLocations),
    BranchConfig("tokyo", "東京支店", 50, 3, StandardStorageLocations),
    BranchConfig("yokohama", "横浜支店", 30, 3, StandardStorageLocations),
    BranchConfig("nagoya", "名古屋支店", 40, 3, StandardStorageLocations),
    BranchConfig("osaka", "大阪支店", 60, 3, StandardStorageLocations),
    BranchConfig("kobe", "神戸支店", 25, 3, StandardStorageLocations),
    BranchConfig("fukuoka", "福岡支店", 35, 3, StandardStorageLocations)]

  /** The built-in configuration, keyed by branch name. */
  const DefaultBranchConfig: map<string, BranchConfig> := map[
    "本店" := DefaultBranchList[0], "東京支店" := DefaultBranchList[1], "横浜支店" := DefaultBranchList[2],
    "名古屋支店" := DefaultBranchList[3], "大阪支店" := DefaultBranchList[4], "神戸支店" := DefaultBranchList[5],
    "福岡支店" := DefaultBranchList[6]]

  /** The id generated for a branch that has no configuration: its name lower-cased, every
    * white-space run replaced by `-`. */
  function GeneratedId(name: string): (id: string)
    ensures forall i :: 0 <= i < |id| ==> !IsJsSpace(id[i])
  {
    ReplaceSpaceRunsNoSpace(LowerAscii(name), "-");
    ReplaceSpaceRuns(LowerAscii(name), "-")
  }

  /** `getBranchConfig`: the stored entry for a configured name, otherwise a generated one with
    * ten people, three days and the standard storage places. */
  function GetBranchConfig(branches: map<string, BranchConfig>, branchName: string): (r: BranchConfig)
    ensures branchName in branches ==> r == branches[branchName]
    ensures branchName !in branches ==>
      r.name == branchName && r.id == GeneratedId(branchName) && r.headcount == 10 && r.requiredDays == 3
      && r.storageLocations == StandardStorageLocations
  {
    if branchName in branches then branches[branchName]
    else BranchConfig(GeneratedId(branchName), branchName, 10, 3, StandardStorageLocations)
  }

  /** The entry `extractBranchesFromItems` starts a branch with: a copy of the built-in entry with
    * an empty storage list, or a generated one. */
  function FreshConfig(branchName: string): (r: BranchConfig)
    ensures r.storageLocations == []
  {
    if branchName in DefaultBranchConfig then DefaultBranchConfig[branchName].(storageLocations := [])
    else BranchConfig(GeneratedId(branchName), branchName, 10, 3, [])
  }

  /** One step of `extractBranchesFromItems`: start the item's branch if it is new, then record
    * its storage place unless the branch already has it. */
  function ExtractStep(branches: map<string, BranchConfig>, item: StockItem): map<string, BranchConfig> {
    var cfg := if item.branch in branches then branches[item.branch] else FreshConfig(item.branch);
    var locs := if item.storageLocation in cfg.storageLocations then cfg.storageLocations
                else cfg.storageLocations + [item.storageLocation];
    branches[item.branch := cfg.(storageLocations := locs)]
  }

  function Extracted(items: seq<StockItem>): map<string, BranchConfig> {
    if items == [] then map[] else ExtractStep(Extracted(items[..|items| - 1]), items[|items| - 1])
  }

  /** `extractBranchesFromItems`. */
  method ExtractBranchesFromItems(items: seq<StockItem>) returns (branches: map<string, BranchConfig>)
    ensures branches == Extracted(items)
  {
    branches := map[];
    var i := 0;
    while i < |items|
      invariant 0 <= i <= |items|
      invariant branches == Extracted(items[..i])
    {
      var item := items[i];
      assert items[..i + 1][..i] == items[..i];
      var branchName := item.branch;
      if branchName !in branches {
        branches := branches[branchName := FreshConfig(branchName)];
      }
      var cfg := branches[branchName];
      if item.storageLocation !in cfg.storageLocations {
        branches := branches[branchName := cfg.(storageLocations := cfg.storageLocations + [item.storageLocation])];
      }
      i := i + 1;
    }
    assert items[..i] == items;
  }

  /** The storage places of the rows of branch `b`, in row order, repeats included. */
  function StoragesOf(items: seq<StockItem>, b: string): seq<string> {
    if items == [] then []
    else
      var last := items[|items| - 1];
      StoragesOf(items[..|items| - 1], b) + if last.branch == b then [last.storageLocation] else []
  }

  /** A step adds the item's branch to the keys and no other. */
  lemma ExtractStepKeys(branches: map<string, BranchConfig>, item: StockItem, b: string)
    ensures b in ExtractStep(branches, item) <==> b in branches || b == item.branch
  {
  }

  /** There is one entry per distinct branch of the rows. */
  lemma {:induction false} ExtractedKeys(items: seq<StockItem>, b: string)
    ensures b in Extracted(items) <==> exists i :: 0 <= i < |items| && items[i].branch == b
    decreases |items|
  {
    if items != [] {
      var n := |items| - 1;
      var init := items[..n];
      ExtractedKeys(init, b);
      ExtractStepKeys(Extracted(init), items[n], b);
      if exists i :: 0 <= i < |init| && init[i].branch == b {
        var i :| 0 <= i < |init| && init[i].branch == b;
        assert items[i] == init[i];
      }
      if exists i :: 0 <= i < |items| && items[i].branch == b {
        var i :| 0 <= i < |items| && items[i].branch == b;
        if i < n {
          assert init[i] == items[i];
        }
      }
    }
  }

  /** A branch's entry is its fresh entry with the distinct storage places of its rows, in
    * first-occurrence order. */
  lemma {:induction false} ExtractedValue(items: seq<StockItem>, b: string)
    requires b in Extracted(items)
    ensures Extracted(items)[b] == FreshConfig(b).(storageLocations := Dedup(StoragesOf(items, b)))
    decreases |items|
  {
    var n := |items| - 1;
    var init := items[..n];
    var last := items[n];
    var prev := Extracted(init);
    assert Extracted(items) == ExtractStep(prev, last);
    assert StoragesOf(items, b) == StoragesOf(init, b) + if last.branch == b then [last.storageLocation] else [];
    if last.branch == b {
      DedupAppend(StoragesOf(init, b), last.storageLocation);
      if b in prev {
        ExtractedValue(init, b);
      } else {
        ExtractedKeys(init, b);
        NoRowsNoStorages(init, b);
        assert StoragesOf(init, b) + [last.storageLocation] == [last.storageLocation];
        DedupAppend([], last.storageLocation);
        assert [] + [last.storageLocation] == [last.storageLocation];
      }
    } else {
      assert StoragesOf(items, b) == StoragesOf(init, b);
      ExtractedValue(init, b);
    }
  }

  lemma {:induction false} NoRowsNoStorages(items: seq<StockItem>, b: string)
    requires forall i :: 0 <= i < |items| ==> items[i].branch != b
    ensures StoragesOf(items, b) == []
    decreases |items|
  {
    if items != [] {
      NoRowsNoStorages(items[..|items| - 1], b);
    }
  }
}

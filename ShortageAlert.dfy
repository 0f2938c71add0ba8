/** The shortage banner: the alerts grouped by branch (branches in first-seen order), the
  * number of branches short, and the first three branches with the first two items of each. */
module ShortageAlert {
  import opened Wrappers
  import opened SeqUtil
  import opened StockTypes

  /** The grouping object: its keys in insertion order, and the alerts under each key. */
  datatype Groups = Groups(order: seq<string>, byBranch: map<string, seq<ShortageAlert>>)

  /** One step of the `reduce`: a new branch gets an empty list, then the alert is pushed. */
  function GroupStep(g: Groups, a: ShortageAlert): Groups {
    if a.branch !in g.byBranch then Groups(g.order + [a.branch], g.byBranch[a.branch := [a]])
    else Groups(g.order, g.byBranch[a.branch := g.byBranch[a.branch] + [a]])
  }

  function Grouped(alerts: seq<ShortageAlert>): Groups {
    if alerts == [] then Groups([], map[]) else GroupStep(Grouped(alerts[..|alerts| - 1]), alerts[|alerts| - 1])
  }

  /** The branch of every alert, in alert order. */
  function BranchesOf(alerts: seq<ShortageAlert>): (r: seq<string>)
    ensures |r| == |alerts|
    ensures forall k :: 0 <= k < |alerts| ==> r[k] == alerts[k].branch
  {
    if alerts == [] then [] else BranchesOf(alerts[..|alerts| - 1]) + [alerts[|alerts| - 1].branch]
  }

  function AtBranch(b: string): ShortageAlert -> bool {
    (a: ShortageAlert) => a.branch == b
  }

  /** The grouping `reduce` over the alerts. */
  method GroupByBranch(alerts: seq<ShortageAlert>) returns (g: Groups)
    ensures g == Grouped(alerts)
  {
    g := Groups([], map[]);
    var i := 0;
    while i < |alerts|
      invariant 0 <= i <= |alerts|
      invariant g == Grouped(alerts[..i])
    {
      assert alerts[..i + 1][..i] == alerts[..i];
      var alert := alerts[i];
      ghost var prev := g;
      if alert.branch !in g.byBranch {
        g := g.(order := g.order + [alert.branch], byBranch := g.byBranch[alert.branch := []]);
      }
      g := g.(byBranch := g.byBranch[alert.branch := g.byBranch[alert.branch] + [alert]]);
      assert alert.branch !in prev.byBranch ==> g.byBranch == prev.byBranch[alert.branch := [alert]] by {
        assert [] + [alert] == [alert];
      }
      i := i + 1;
    }
    assert alerts[..i] == alerts;
  }

  /** The keys are the distinct branches in first-seen order, and every alert is in the group of
    * its branch and no other, the groups keeping the alerts' order. */
  lemma {:induction false} GroupedShape(alerts: seq<ShortageAlert>)
    ensures Grouped(alerts).order == Dedup(BranchesOf(alerts))
    ensures forall b :: b in Grouped(alerts).byBranch <==> b in Grouped(alerts).order
    ensures forall b :: b in Grouped(alerts).byBranch ==> Grouped(alerts).byBranch[b] == Filter(alerts, AtBranch(b))
    decreases |alerts|
  {
    if alerts != [] {
      var n := |alerts| - 1;
      var init, last := alerts[..n], alerts[n];
      assert alerts == init + [last];
      GroupedShape(init);
      DedupAppend(BranchesOf(init), last.branch);
      var prev := Grouped(init);
      forall b | b in Grouped(alerts).byBranch
        ensures Grouped(alerts).byBranch[b] == Filter(alerts, AtBranch(b))
      {
        FilterAppend(init, [last], AtBranch(b));
        if b != last.branch {
          assert Filter([last], AtBranch(b)) == [];
        } else if b !in prev.byBranch {
          NoneAtBranch(init, b);
        }
      }
    }
  }

  /** A branch no key names has no alerts. */
  lemma {:induction false} NoneAtBranch(alerts: seq<ShortageAlert>, b: string)
    requires b !in Dedup(BranchesOf(alerts))
    ensures Filter(alerts, AtBranch(b)) == []
    decreases |alerts|
  {
    if alerts != [] {
      var n := |alerts| - 1;
      assert alerts == alerts[..n] + [alerts[n]];
      assert BranchesOf(alerts)[n] == alerts[n].branch;
      DedupAppend(BranchesOf(alerts[..n]), alerts[n].branch);
      NoneAtBranch(alerts[..n], b);
      FilterAppend(alerts[..n], [alerts[n]], AtBranch(b));
    }
  }

  /** A branch is a key exactly when some alert is for it. */
  lemma {:induction false} BranchesOfMembers(alerts: seq<ShortageAlert>, b: string)
    ensures b in BranchesOf(alerts) <==> exists k :: 0 <= k < |alerts| && alerts[k].branch == b
    decreases |alerts|
  {
    if alerts != [] {
      var n := |alerts| - 1;
      BranchesOfMembers(alerts[..n], b);
      if exists k :: 0 <= k < |alerts| && alerts[k].branch == b {
        var k :| 0 <= k < |alerts| && alerts[k].branch == b;
        if k < n {
          assert alerts[..n][k] == alerts[k];
        }
      }
    }
  }

  // ---------------------------------------------------------------- what the banner shows

  /** One branch line: the branch, the labels of its first two alerts, and the count of the
    * others when there are any (`他n件`). */
  datatype BranchLine = BranchLine(branch: string, labels: seq<string>, moreItems: Option<nat>)

  /** The banner: the number of branches short (`N拠点で…`), the first three branch lines, and the
    * number of further branches when there are any (`他 k拠点`). */
  datatype ShortageView = ShortageView(branchCount: nat, lines: seq<BranchLine>, moreBranches: Option<nat>)

  /** An alert's label: its item name, or its category when it has none. */
  function Label(a: ShortageAlert): string {
    OptOrStr(a.itemName, a.category)
  }

  function Labels(alerts: seq<ShortageAlert>): (r: seq<string>)
    ensures |r| == |alerts| && forall k :: 0 <= k < |alerts| ==> r[k] == Label(alerts[k])
  {
    if alerts == [] then [] else [Label(alerts[0])] + Labels(alerts[1..])
  }

  function Min(a: nat, b: nat): nat {
    if a <= b then a else b
  }

  function LineOf(branch: string, group: seq<ShortageAlert>): (l: BranchLine)
    ensures l.branch == branch && |l.labels| == Min(2, |group|)
    ensures forall k :: 0 <= k < |l.labels| ==> l.labels[k] == Label(group[k])
    ensures l.moreItems.Some? <==> |group| > 2
    ensures l.moreItems.Some? ==> |l.labels| + l.moreItems.value == |group|
  {
    BranchLine(branch, Labels(group[..Min(2, |group|)]), if |group| > 2 then Some(|group| - 2) else None)
  }

  function LinesOf(order: seq<string>, byBranch: map<string, seq<ShortageAlert>>): (r: seq<BranchLine>)
    requires forall k :: 0 <= k < |order| ==> order[k] in byBranch
    ensures |r| == |order| && forall k :: 0 <= k < |order| ==> r[k] == LineOf(order[k], byBranch[order[k]])
  {
    if order == [] then [] else [LineOf(order[0], byBranch[order[0]])] + LinesOf(order[1..], byBranch)
  }

  /** The banner of a grouping. */
  function ViewOf(g: Groups): (v: ShortageView)
    requires forall k :: 0 <= k < |g.order| ==> g.order[k] in g.byBranch
    ensures v.branchCount == |g.order| && |v.lines| == Min(3, |g.order|)
    ensures forall k :: 0 <= k < |v.lines| ==> v.lines[k] == LineOf(g.order[k], g.byBranch[g.order[k]])
    ensures v.moreBranches.Some? <==> |g.order| > 3
    ensures v.moreBranches.Some? ==> v.moreBranches.value + 3 == |g.order|
  {
    var shown := g.order[..Min(3, |g.order|)];
    ShortageView(|g.order|, LinesOf(shown, g.byBranch), if |g.order| > 3 then Some(|g.order| - 3) else None)
  }

  /** `ShortageAlert`: nothing without alerts; otherwise the banner of the grouping. The branch
    * count is the number of distinct branches; line `k` is the `k`-th branch to appear, with the
    * labels of its first alerts in alert order. */
  method Render(alerts: seq<ShortageAlert>) returns (v: Option<ShortageView>)
    ensures v.None? <==> alerts == []
    ensures v.Some? ==> var branches := Dedup(BranchesOf(alerts));
      v.value.branchCount == |branches| && Distinct(branches)
      && |v.value.lines| == Min(3, |branches|)
      && (forall k :: 0 <= k < |v.value.lines| ==>
            v.value.lines[k] == LineOf(branches[k], Filter(alerts, AtBranch(branches[k]))))
      && (v.value.moreBranches.Some? <==> |branches| > 3)
  {
    if alerts == [] {
      return None;
    }
    var g := GroupByBranch(alerts);
    GroupedView(alerts);
    v := Some(ViewOf(g));
  }

  /** The banner of the grouping of the alerts, line by line. */
  lemma GroupedView(alerts: seq<ShortageAlert>)
    ensures forall k :: 0 <= k < |Grouped(alerts).order| ==> Grouped(alerts).order[k] in Grouped(alerts).byBranch
    ensures var branches := Dedup(BranchesOf(alerts)); var v := ViewOf(Grouped(alerts));
      v.branchCount == |branches| && Distinct(branches)
      && |v.lines| == Min(3, |branches|)
      && (forall k :: 0 <= k < |v.lines| ==> v.lines[k] == LineOf(branches[k], Filter(alerts, AtBranch(branches[k]))))
      && (v.moreBranches.Some? <==> |branches| > 3)
  {
    GroupedShape(alerts);
    var g := Grouped(alerts);
    var branches := Dedup(BranchesOf(alerts));
    var v := ViewOf(g);
    forall k | 0 <= k < |v.lines|
      ensures v.lines[k] == LineOf(branches[k], Filter(alerts, AtBranch(branches[k])))
    {
      assert g.order[k] == branches[k] && branches[k] in g.byBranch;
    }
  }

  /** Every branch with an alert is counted, and only those: the count is the number of distinct
    * branches. */
  lemma BranchCountIsDistinctBranches(alerts: seq<ShortageAlert>, b: string)
    ensures b in Dedup(BranchesOf(alerts)) <==> exists k :: 0 <= k < |alerts| && alerts[k].branch == b
  {
    BranchesOfMembers(alerts, b);
  }
}

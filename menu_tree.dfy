/** The menu tree of the sheet UI: a flat list of menu items, each naming
    its parent by id, is turned into nested display items. */
module MenuTree {
  import opened Wrappers

  /** A registered menu item. Only the fields the tree is built from are
      spelled out; a display node carries the whole item, so every other
      field travels with it unchanged. */
  datatype MenuItem = MenuItem(id: string, parentId: Option<string>, title: string)

  /** A node of the tree: the source item plus its sub-menu. */
  datatype DisplayMenuItem = DisplayMenuItem(item: MenuItem, subMenuItems: seq<DisplayMenuItem>)

  /** The parent relation of `items` is acyclic, witnessed by a rank that
      strictly decreases from every parent to each of its children. */
  ghost predicate Ranked(items: seq<MenuItem>, rank: map<string, nat>)
  {
    forall i :: 0 <= i < |items| ==>
      && items[i].id in rank
      && (items[i].parentId.Some? ==>
            items[i].parentId.value in rank && rank[items[i].id] < rank[items[i].parentId.value])
  }

  /** 0 for a parent the rank knows, 1 for the root and for unknown ids. */
  ghost function Tier(parentId: Option<string>, rank: map<string, nat>): nat
  {
    if parentId.Some? && parentId.value in rank then 0 else 1
  }

  ghost function RankOf(parentId: Option<string>, rank: map<string, nat>): nat
  {
    if parentId.Some? && parentId.value in rank then rank[parentId.value] else 0
  }

  /** The items whose parent is `parentId`, in input order. */
  function Children(items: seq<MenuItem>, parentId: Option<string>): seq<MenuItem>
  {
    if items == [] then []
    else
      var item := items[|items| - 1];
      Children(items[..|items| - 1], parentId) + (if item.parentId == parentId then [item] else [])
  }

  /** The display items under `parentId` (None for the top level): one node
      per item whose parent is `parentId`, in input order, each carrying
      that item unchanged. */
  function BuildMenuTree(items: seq<MenuItem>, parentId: Option<string>, ghost rank: map<string, nat>): (r: seq<DisplayMenuItem>)
    requires Ranked(items, rank)
    decreases Tier(parentId, rank), RankOf(parentId, rank), |items| + 1
    ensures |r| == |Children(items, parentId)|
    ensures forall k :: 0 <= k < |r| ==> r[k].item == Children(items, parentId)[k]
  {
    assert items[..|items|] == items;
    BuildLevel(items, |items|, parentId, rank)
  }

  /** The nodes contributed by the first `n` items. */
  function BuildLevel(items: seq<MenuItem>, n: nat, parentId: Option<string>, ghost rank: map<string, nat>): (r: seq<DisplayMenuItem>)
    requires Ranked(items, rank)
    requires n <= |items|
    decreases Tier(parentId, rank), RankOf(parentId, rank), n
    ensures |r| == |Children(items[..n], parentId)|
    ensures forall k :: 0 <= k < |r| ==> r[k].item == Children(items[..n], parentId)[k]
  {
    if n == 0 then []
    else
      var item := items[n - 1];
      assert items[..n][..n - 1] == items[..n - 1];
      BuildLevel(items, n - 1, parentId, rank) +
        (if item.parentId == parentId
         then [DisplayMenuItem(item, BuildMenuTree(items, Some(item.id), rank))]
         else [])
  }

  /** Node `k` of a level holds, as its sub-menu, the tree built under the
      node's own id. */
  lemma {:induction false} LevelSubMenu(items: seq<MenuItem>, n: nat, parentId: Option<string>, rank: map<string, nat>, k: nat)
    requires Ranked(items, rank)
    requires n <= |items|
    requires k < |BuildLevel(items, n, parentId, rank)|
    ensures var node := BuildLevel(items, n, parentId, rank)[k];
      node.subMenuItems == BuildMenuTree(items, Some(node.item.id), rank)
  {
    var t0 := BuildLevel(items, n - 1, parentId, rank);
    if k < |t0| {
      LevelSubMenu(items, n - 1, parentId, rank, k);
      assert BuildLevel(items, n, parentId, rank)[k] == t0[k];
    }
  }

  /** Every node of `BuildMenuTree` holds, as its sub-menu, the tree built
      from its own id: the whole result is the tree the parent links
      describe, level by level. */
  lemma SubMenusAreTrees(items: seq<MenuItem>, parentId: Option<string>, rank: map<string, nat>)
    requires Ranked(items, rank)
    ensures var t := BuildMenuTree(items, parentId, rank);
      forall k :: 0 <= k < |t| ==> t[k].subMenuItems == BuildMenuTree(items, Some(t[k].item.id), rank)
  {
    var t := BuildMenuTree(items, parentId, rank);
    assert t == BuildLevel(items, |items|, parentId, rank);
    forall k | 0 <= k < |t|
      ensures t[k].subMenuItems == BuildMenuTree(items, Some(t[k].item.id), rank)
    {
      LevelSubMenu(items, |items|, parentId, rank, k);
    }
  }

  /** An item is a child of `parentId` exactly when it is in the list and
      names `parentId` as its parent. */
  lemma {:induction false} ChildrenMembership(items: seq<MenuItem>, parentId: Option<string>, x: MenuItem)
    ensures x in Children(items, parentId) <==> x in items && x.parentId == parentId
  {
    if items != [] {
      var n := |items| - 1;
      ChildrenMembership(items[..n], parentId, x);
      assert items == items[..n] + [items[n]];
    }
  }

  /** The positions of the items whose parent is `parentId`. */
  ghost function MatchingIndices(items: seq<MenuItem>, parentId: Option<string>): set<nat>
  {
    set i: nat | i < |items| && items[i].parentId == parentId
  }

  /** A level has one node per item naming that parent: its length is the
      number of such positions in the list. */
  lemma {:induction false} ChildrenCount(items: seq<MenuItem>, parentId: Option<string>)
    ensures |Children(items, parentId)| == |MatchingIndices(items, parentId)|
  {
    if items != [] {
      var n := |items| - 1;
      ChildrenCount(items[..n], parentId);
      var before := MatchingIndices(items[..n], parentId);
      if items[n].parentId == parentId {
        assert MatchingIndices(items, parentId) == before + {n};
      } else {
        assert MatchingIndices(items, parentId) == before;
      }
    }
  }

  /** Under a rank no item is its own parent and no two items name each
      other as parent: such cycles send the recursion round forever, and
      the rank is what excludes them. */
  lemma RankedHasNoShortCycles(items: seq<MenuItem>, rank: map<string, nat>, i: nat, j: nat)
    requires Ranked(items, rank)
    requires i < |items| && j < |items|
    ensures items[i].parentId != Some(items[i].id)
    ensures items[i].parentId == Some(items[j].id) ==> items[j].parentId != Some(items[i].id)
  {
  }
}

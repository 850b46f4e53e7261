/**
 * The generic, path-addressed estimate table
 * (estimate-management-fe/src/components/estimate/TestEstimateTable.tsx).
 *
 * An issue has any number of children; a node is addressed by an index path
 * `[i0, i1, ...]` read from the root list downwards. The hierarchy levels and
 * the role ids are the component's configuration. The operations are
 * specified by functions on the root list; the class `IssueTable` walks the
 * path with a loop, as the component does, and installs the new list.
 */
module IssueTree {
  import opened Lists
  import opened Wrappers

  // ------------------------------------------------------------------ shapes

  datatype Personnel = Personnel(estimateHours: int, roleId: int, issueId: int, id: int)

  datatype Issue = Issue(
    title: string,
    typeId: int,
    parentId: Option<int>,
    projectId: int,
    id: int,
    createdAt: Option<string>,
    children: seq<Issue>,
    personnel: seq<Personnel>)

  datatype HierarchyLevel = HierarchyLevel(key: string, displayLabel: string, addButtonText: string, typeId: int)

  /** The levels the component uses when none are passed in. */
  const DefaultLevels: seq<HierarchyLevel> := [
    HierarchyLevel("epic", "Epic", "Add Epic", 1),
    HierarchyLevel("story", "Story", "Add Story", 2),
    HierarchyLevel("task", "Task", "Add Task", 3),
    HierarchyLevel("subtask", "Sub-task", "Add Sub-task", 4)
  ]

  /**
   * The keys of the default role mapping {1: DEV, 2: BA, 3: TESTER, 4: QA},
   * in the ascending order integer keys are enumerated in.
   */
  const DefaultRoleIds: seq<int> := [1, 2, 3, 4]

  /** The project every new item is created in (`projectId` is never passed). */
  const DefaultProjectId: int := 1

  // ------------------------------------------------------------------ totals

  /** calculateTotal: `personnel.reduce((sum, p) => sum + p.estimate_hours, 0)`. */
  function CalculateTotal(ps: seq<Personnel>): int
  {
    SumOf(ps, HoursOf)
  }

  function HoursOf(p: Personnel): int { p.estimateHours }

  /** Entries that all carry zero hours total zero. */
  lemma {:induction false} ZeroHoursTotal(ps: seq<Personnel>)
    requires forall i :: 0 <= i < |ps| ==> ps[i].estimateHours == 0
    ensures CalculateTotal(ps) == 0
  {
    if ps != [] {
      ZeroHoursTotal(ps[..|ps| - 1]);
    }
  }

  /**
   * What `calculateRecursive` adds for a list of items: each item's own
   * hours if it has no children, otherwise what its children add.
   */
  function ItemsTotal(items: seq<Issue>): int
    decreases items
  {
    if items == [] then 0 else ItemsTotal(items[..|items| - 1]) + ItemTotal(items[|items| - 1])
  }

  function ItemTotal(item: Issue): int
    decreases item
  {
    if item.children == [] then CalculateTotal(item.personnel) else ItemsTotal(item.children)
  }

  /** The personnel lists of the leaves, left to right: the rows whose hours are counted. */
  function ItemsLeaves(items: seq<Issue>): seq<seq<Personnel>>
    decreases items
  {
    if items == [] then [] else ItemsLeaves(items[..|items| - 1]) + ItemLeaves(items[|items| - 1])
  }

  function ItemLeaves(item: Issue): seq<seq<Personnel>>
    decreases item
  {
    if item.children == [] then [item.personnel] else ItemsLeaves(item.children)
  }

  lemma {:induction false} ItemsTotalIsSumOf(items: seq<Issue>)
    ensures ItemsTotal(items) == SumOf(items, ItemTotal)
  {
    if items != [] {
      ItemsTotalIsSumOf(items[..|items| - 1]);
    }
  }

  /** The roll-up is the sum of `calculateTotal` over exactly the leaves; no items total 0. */
  lemma {:induction false} GrandTotalIsLeafSum(items: seq<Issue>)
    ensures ItemsTotal(items) == SumOf(ItemsLeaves(items), CalculateTotal)
    ensures items == [] ==> ItemsTotal(items) == 0
    decreases items
  {
    if items != [] {
      var init, last := items[..|items| - 1], items[|items| - 1];
      GrandTotalIsLeafSum(init);
      ItemTotalIsLeafSum(last);
      SumOfAppend(ItemsLeaves(init), ItemLeaves(last), CalculateTotal);
    }
  }

  lemma {:induction false} ItemTotalIsLeafSum(item: Issue)
    ensures ItemTotal(item) == SumOf(ItemLeaves(item), CalculateTotal)
    decreases item
  {
    if item.children == [] {
      assert [item.personnel][..0] == [];
    } else {
      GrandTotalIsLeafSum(item.children);
    }
  }

  /** Every item contributes at least one leaf row. */
  lemma {:induction false} ItemsLeafCount(items: seq<Issue>)
    ensures |ItemsLeaves(items)| >= |items|
    decreases items
  {
    if items != [] {
      ItemsLeafCount(items[..|items| - 1]);
      ItemLeafCount(items[|items| - 1]);
    }
  }

  lemma {:induction false} ItemLeafCount(item: Issue)
    ensures |ItemLeaves(item)| >= 1
    decreases item
  {
    if item.children != [] {
      ItemsLeafCount(item.children);
    }
  }

  /** calculateGrandTotal: a running total that `calculateRecursive` adds every leaf to. */
  method CalculateGrandTotal(items: seq<Issue>) returns (total: int)
    ensures total == ItemsTotal(items)
    ensures total == SumOf(ItemsLeaves(items), CalculateTotal)
  {
    total := 0;
    for i := 0 to |items|
      invariant total == ItemsTotal(items[..i])
    {
      assert items[..i + 1][..i] == items[..i];
      total := CalculateRecursive(item := items[i], before := total);
    }
    assert items[..|items|] == items;
    GrandTotalIsLeafSum(items);
  }

  /** calculateRecursive: adds the item's own hours if it is a leaf, else visits its children. */
  method CalculateRecursive(item: Issue, before: int) returns (total: int)
    ensures total == before + ItemTotal(item)
    decreases item
  {
    if item.children == [] {
      total := before + CalculateTotal(item.personnel);
    } else {
      total := before;
      for i := 0 to |item.children|
        invariant total == before + ItemsTotal(item.children[..i])
      {
        assert item.children[..i + 1][..i] == item.children[..i];
        total := CalculateRecursive(item.children[i], total);
      }
      assert item.children[..|item.children|] == item.children;
    }
  }

  // --------------------------------------------------------------- new items

  /** `roleIds.map(...)`: one zero-hour entry per role id, owned by `issueId`, with caller-supplied ids. */
  function NewPersonnel(roleIds: seq<int>, issueId: int, ids: seq<int>): (r: seq<Personnel>)
    requires |ids| == |roleIds|
    ensures |r| == |roleIds|
    ensures forall i :: 0 <= i < |r| ==> r[i] == Personnel(0, roleIds[i], issueId, ids[i])
  {
    if roleIds == [] then []
    else
      NewPersonnel(roleIds[..|roleIds| - 1], issueId, ids[..|ids| - 1])
        + [Personnel(0, roleIds[|roleIds| - 1], issueId, ids[|ids| - 1])]
  }

  /**
   * createNewItem: a blank, childless item of the level's type. `newId` and
   * `personnelIds` stand for the generated ids.
   */
  function CreateNewItem(levels: seq<HierarchyLevel>, roleIds: seq<int>, levelIndex: nat,
                         newId: int, personnelIds: seq<int>, projectId: int): (r: Issue)
    requires levelIndex < |levels| && |personnelIds| == |roleIds|
    ensures r.title == "" && r.children == [] && r.parentId == None && r.createdAt == None
    ensures r.typeId == levels[levelIndex].typeId && r.id == newId && r.projectId == projectId
    ensures |r.personnel| == |roleIds|
    ensures forall i :: 0 <= i < |roleIds| ==>
              r.personnel[i].roleId == roleIds[i] && r.personnel[i].estimateHours == 0 && r.personnel[i].issueId == newId
    ensures ItemTotal(r) == 0 && ItemLeaves(r) == [r.personnel]
  {
    var personnel := NewPersonnel(roleIds, newId, personnelIds);
    ZeroHoursTotal(personnel);
    Issue("", levels[levelIndex].typeId, None, projectId, newId, None, [], personnel)
  }

  // ------------------------------------------------------------------- paths

  /** Following `path` from the root list reaches a node at every step. */
  predicate ValidPath(items: seq<Issue>, path: seq<nat>)
    decreases |path|
  {
    |path| > 0 && path[0] < |items| &&
    (|path| > 1 ==> ValidPath(items[path[0]].children, path[1..]))
  }

  /** The node `path` leads to. */
  function NodeAt(items: seq<Issue>, path: seq<nat>): Issue
    requires ValidPath(items, path)
    decreases |path|
  {
    if |path| == 1 then items[path[0]] else NodeAt(items[path[0]].children, path[1..])
  }

  /**
   * The root list once the node at `path` is `node`: what writing into the
   * node through the shared references does to the tree.
   */
  function ReplaceAt(items: seq<Issue>, path: seq<nat>, node: Issue): (r: seq<Issue>)
    requires ValidPath(items, path)
    ensures |r| == |items|
    ensures ValidPath(r, path) && NodeAt(r, path) == node
    decreases |path|
  {
    var head := items[path[0]];
    if |path| == 1 then items[path[0] := node]
    else items[path[0] := head.(children := ReplaceAt(head.children, path[1..], node))]
  }

  /** Neither path is a prefix of the other: they part at some step. */
  predicate Disjoint(p: seq<nat>, q: seq<nat>)
    decreases |p|
  {
    |p| > 0 && |q| > 0 && (p[0] != q[0] || Disjoint(p[1..], q[1..]))
  }

  /** A path that resolves has every non-empty prefix resolving. */
  lemma {:induction false} PrefixValid(items: seq<Issue>, path: seq<nat>, i: nat)
    requires ValidPath(items, path) && 1 <= i <= |path|
    ensures ValidPath(items, path[..i])
    decreases |path|
  {
    if i > 1 {
      assert path[..i][1..] == path[1..][..i - 1];
      PrefixValid(items[path[0]].children, path[1..], i - 1);
    }
  }

  /** One more step down resolves exactly when the index is within the node's children. */
  lemma {:induction false} ExtendPath(items: seq<Issue>, path: seq<nat>, k: nat)
    requires ValidPath(items, path)
    ensures ValidPath(items, path + [k]) <==> k < |NodeAt(items, path).children|
    ensures ValidPath(items, path + [k]) ==> NodeAt(items, path + [k]) == NodeAt(items, path).children[k]
    decreases |path|
  {
    if |path| == 1 {
      assert (path + [k])[1..] == [k];
    } else {
      assert (path + [k])[1..] == path[1..] + [k];
      ExtendPath(items[path[0]].children, path[1..], k);
    }
  }

  /** Replacing one node leaves every node off its path as it was. */
  lemma {:induction false} ReplaceAtElsewhere(items: seq<Issue>, path: seq<nat>, node: Issue, q: seq<nat>)
    requires ValidPath(items, path) && ValidPath(items, q) && Disjoint(path, q)
    ensures ValidPath(ReplaceAt(items, path, node), q)
    ensures NodeAt(ReplaceAt(items, path, node), q) == NodeAt(items, q)
    decreases |path|
  {
    if path[0] == q[0] {
      ReplaceAtElsewhere(items[path[0]].children, path[1..], node, q[1..]);
    }
  }

  /**
   * The nodes on the way down keep every field but their children, and the
   * number of their children.
   */
  lemma {:induction false} ReplaceAtAncestors(items: seq<Issue>, path: seq<nat>, node: Issue, j: nat)
    requires ValidPath(items, path) && 1 <= j < |path|
    ensures ValidPath(items, path[..j]) && ValidPath(ReplaceAt(items, path, node), path[..j])
    ensures var before, after := NodeAt(items, path[..j]), NodeAt(ReplaceAt(items, path, node), path[..j]);
            after == before.(children := after.children) && |after.children| == |before.children|
    decreases |path|
  {
    if j > 1 {
      assert path[..j][1..] == path[1..][..j - 1];
      ReplaceAtAncestors(items[path[0]].children, path[1..], node, j - 1);
    }
  }

  lemma {:induction false} ReplaceAtSame(items: seq<Issue>, path: seq<nat>)
    requires ValidPath(items, path)
    ensures ReplaceAt(items, path, NodeAt(items, path)) == items
    decreases |path|
  {
    if |path| > 1 {
      var head := items[path[0]];
      ReplaceAtSame(head.children, path[1..]);
      assert head.(children := head.children) == head;
    }
  }

  lemma {:induction false} ReplaceAtTwice(items: seq<Issue>, path: seq<nat>, a: Issue, b: Issue)
    requires ValidPath(items, path)
    ensures ReplaceAt(ReplaceAt(items, path, a), path, b) == ReplaceAt(items, path, b)
    decreases |path|
  {
    if |path| > 1 {
      ReplaceAtTwice(items[path[0]].children, path[1..], a, b);
    }
  }

  /** The roll-up moves by exactly the change in the replaced node's roll-up. */
  lemma {:induction false} ReplaceAtTotal(items: seq<Issue>, path: seq<nat>, node: Issue)
    requires ValidPath(items, path)
    ensures ItemsTotal(ReplaceAt(items, path, node)) == ItemsTotal(items) - ItemTotal(NodeAt(items, path)) + ItemTotal(node)
    decreases |path|
  {
    var head := items[path[0]];
    var r := ReplaceAt(items, path, node);
    ItemsTotalIsSumOf(items);
    ItemsTotalIsSumOf(r);
    if |path| == 1 {
      SumOfUpdate(items, path[0], node, ItemTotal);
    } else {
      var below := ReplaceAt(head.children, path[1..], node);
      ReplaceAtTotal(head.children, path[1..], node);
      assert ItemTotal(head) == ItemsTotal(head.children);
      assert ItemTotal(head.(children := below)) == ItemsTotal(below);
      SumOfUpdate(items, path[0], head.(children := below), ItemTotal);
    }
  }

  // -------------------------------------------------------------- operations

  datatype Field = TitleField(title: string) | PersonnelField(personnel: seq<Personnel>)

  /** `current[field] = value` for the two fields the table writes. */
  function SetField(item: Issue, f: Field): (r: Issue)
    ensures f.TitleField? ==> r == item.(title := f.title)
    ensures f.PersonnelField? ==> r == item.(personnel := f.personnel)
  {
    match f
    case TitleField(title) => item.(title := title)
    case PersonnelField(personnel) => item.(personnel := personnel)
  }

  /** addItem: `item` becomes the last root item, or the last child of the node at `path`. */
  function ItemAdded(items: seq<Issue>, path: seq<nat>, item: Issue): (r: seq<Issue>)
    requires path == [] || ValidPath(items, path)
    ensures path == [] ==> r == items + [item]
    ensures path != [] ==>
              |r| == |items| && ValidPath(r, path) &&
              NodeAt(r, path) == NodeAt(items, path).(children := NodeAt(items, path).children + [item])
  {
    if path == [] then items + [item]
    else
      var parent := NodeAt(items, path);
      ReplaceAt(items, path, parent.(children := parent.children + [item]))
  }

  /** deleteItem: splices the last index out of the root list or out of the children of the node the rest of the path reaches. */
  function ItemDeleted(items: seq<Issue>, path: seq<nat>): (r: seq<Issue>)
    requires |path| == 1 || (|path| > 1 && ValidPath(items, path[..|path| - 1]))
    ensures |path| == 1 ==> r == Splice(items, path[0])
    ensures |path| > 1 ==>
              var parentPath := path[..|path| - 1];
              var parent := NodeAt(items, parentPath);
              |r| == |items| && ValidPath(r, parentPath) &&
              NodeAt(r, parentPath) == parent.(children := Splice(parent.children, path[|path| - 1]))
  {
    if |path| == 1 then Splice(items, path[0])
    else
      var parentPath := path[..|path| - 1];
      var parent := NodeAt(items, parentPath);
      ReplaceAt(items, parentPath, parent.(children := Splice(parent.children, path[|path| - 1])))
  }

  /** updateItem: writes one field of the node at `path`. */
  function ItemUpdated(items: seq<Issue>, path: seq<nat>, f: Field): (r: seq<Issue>)
    requires ValidPath(items, path)
    ensures |r| == |items| && ValidPath(r, path) && NodeAt(r, path) == SetField(NodeAt(items, path), f)
  {
    ReplaceAt(items, path, SetField(NodeAt(items, path), f))
  }

  /** `personnel.findIndex((p) => p.role_id === roleId)`: the first matching index, or -1. */
  function FindRole(ps: seq<Personnel>, roleId: int): int
  {
    FindIndex(ps, (p: Personnel) => p.roleId == roleId)
  }

  /** The write of `updatePersonnel`: the first entry of the role gets `hours`; otherwise nothing changes. */
  function HoursSet(ps: seq<Personnel>, roleId: int, hours: int): (r: seq<Personnel>)
    ensures |r| == |ps|
    ensures FindRole(ps, roleId) == -1 ==> r == ps
    ensures FindRole(ps, roleId) >= 0 ==>
              r[FindRole(ps, roleId)] == ps[FindRole(ps, roleId)].(estimateHours := hours) &&
              forall i :: 0 <= i < |ps| && i != FindRole(ps, roleId) ==> r[i] == ps[i]
    ensures CalculateTotal(r) ==
              if FindRole(ps, roleId) == -1 then CalculateTotal(ps)
              else CalculateTotal(ps) - ps[FindRole(ps, roleId)].estimateHours + hours
  {
    var i := FindRole(ps, roleId);
    if i == -1 then ps
    else
      SumOfUpdate(ps, i, ps[i].(estimateHours := hours), HoursOf);
      ps[i := ps[i].(estimateHours := hours)]
  }

  /** updatePersonnel: sets the hours of one role on the node at `path`. */
  function PersonnelUpdated(items: seq<Issue>, path: seq<nat>, roleId: int, hours: int): (r: seq<Issue>)
    requires ValidPath(items, path)
    ensures |r| == |items| && ValidPath(r, path)
    ensures NodeAt(r, path) == NodeAt(items, path).(personnel := HoursSet(NodeAt(items, path).personnel, roleId, hours))
  {
    var node := NodeAt(items, path);
    ReplaceAt(items, path, node.(personnel := HoursSet(node.personnel, roleId, hours)))
  }

  // --------------------------------------------------------- what they keep

  /** The added item can be reached one step below `path`, as the last child. */
  lemma AddedItemReachable(items: seq<Issue>, path: seq<nat>, item: Issue)
    requires path == [] || ValidPath(items, path)
    ensures var k := if path == [] then |items| else |NodeAt(items, path).children|;
            ValidPath(ItemAdded(items, path, item), path + [k]) &&
            NodeAt(ItemAdded(items, path, item), path + [k]) == item
  {
    var r := ItemAdded(items, path, item);
    if path != [] {
      ExtendPath(r, path, |NodeAt(items, path).children|);
    }
  }

  /**
   * Adding to a childless node hides its own hours behind the new child;
   * adding to any other list adds the new item's roll-up.
   */
  lemma ItemAddedTotal(items: seq<Issue>, path: seq<nat>, item: Issue)
    requires path == [] || ValidPath(items, path)
    ensures ItemsTotal(ItemAdded(items, path, item)) ==
              ItemsTotal(items) + ItemTotal(item) -
              (if path != [] && NodeAt(items, path).children == [] then CalculateTotal(NodeAt(items, path).personnel) else 0)
  {
    if path == [] {
      assert (items + [item])[..|items|] == items;
    } else {
      var parent := NodeAt(items, path);
      var grown := parent.(children := parent.children + [item]);
      ReplaceAtTotal(items, path, grown);
      assert (parent.children + [item])[..|parent.children|] == parent.children;
      assert ItemTotal(grown) == ItemsTotal(parent.children) + ItemTotal(item);
      if parent.children == [] {
        assert ItemTotal(parent) == CalculateTotal(parent.personnel);
      } else {
        assert ItemTotal(parent) == ItemsTotal(parent.children);
      }
    }
  }

  /**
   * Deleting an item takes its roll-up off; deleting the last child of a
   * node brings that node's own hours back.
   */
  lemma ItemDeletedTotal(items: seq<Issue>, path: seq<nat>)
    requires ValidPath(items, path)
    ensures |path| > 1 ==> ValidPath(items, path[..|path| - 1])
    ensures ItemsTotal(ItemDeleted(items, path)) ==
              ItemsTotal(items) - ItemTotal(NodeAt(items, path)) +
              (if |path| > 1 && |NodeAt(items, path[..|path| - 1]).children| == 1
               then CalculateTotal(NodeAt(items, path[..|path| - 1]).personnel) else 0)
  {
    var k := path[|path| - 1];
    if |path| == 1 {
      ItemsTotalIsSumOf(items);
      ItemsTotalIsSumOf(Splice(items, k));
      SumOfRemove(items, k, ItemTotal);
    } else {
      var parentPath := path[..|path| - 1];
      PrefixValid(items, path, |path| - 1);
      assert path == parentPath + [k];
      ExtendPath(items, parentPath, k);
      var parent := NodeAt(items, parentPath);
      var shrunk := parent.(children := Splice(parent.children, k));
      ReplaceAtTotal(items, parentPath, shrunk);
      ItemsTotalIsSumOf(parent.children);
      ItemsTotalIsSumOf(shrunk.children);
      SumOfRemove(parent.children, k, ItemTotal);
    }
  }

  /** Only a leaf's hours are counted, so a change of hours shows in the roll-up only at a leaf. */
  lemma PersonnelUpdatedTotal(items: seq<Issue>, path: seq<nat>, roleId: int, hours: int)
    requires ValidPath(items, path)
    ensures var node := NodeAt(items, path);
            ItemsTotal(PersonnelUpdated(items, path, roleId, hours)) ==
              ItemsTotal(items) +
              (if node.children == [] then CalculateTotal(HoursSet(node.personnel, roleId, hours)) - CalculateTotal(node.personnel) else 0)
  {
    var node := NodeAt(items, path);
    ReplaceAtTotal(items, path, node.(personnel := HoursSet(node.personnel, roleId, hours)));
  }

  /** Renaming an item never moves the roll-up. */
  lemma TitleUpdateKeepsTotal(items: seq<Issue>, path: seq<nat>, title: string)
    requires ValidPath(items, path)
    ensures ItemsTotal(ItemUpdated(items, path, TitleField(title))) == ItemsTotal(items)
  {
    ReplaceAtTotal(items, path, SetField(NodeAt(items, path), TitleField(title)));
  }

  /** Deleting the item just added, at the index it was added at, gives back the tree. */
  lemma ItemDeleteUndoesAdd(items: seq<Issue>, path: seq<nat>, item: Issue)
    requires path == [] || ValidPath(items, path)
    ensures var k := if path == [] then |items| else |NodeAt(items, path).children|;
            var added := ItemAdded(items, path, item);
            (path + [k])[..|path|] == path &&
            (path == [] || ValidPath(added, path)) &&
            ItemDeleted(added, path + [k]) == items
  {
    var added := ItemAdded(items, path, item);
    if path == [] {
      assert Splice(items + [item], |items|) == items;
    } else {
      var parent := NodeAt(items, path);
      var k := |parent.children|;
      assert (path + [k])[..|path|] == path;
      assert Splice(parent.children + [item], k) == parent.children;
      assert parent.(children := parent.children) == parent;
      ReplaceAtTwice(items, path, parent.(children := parent.children + [item]), parent);
      ReplaceAtSame(items, path);
    }
  }

  // -------------------------------------------------- one entry per role id

  /** One entry per configured role id, in the configured order. */
  predicate HasRoles(ps: seq<Personnel>, roleIds: seq<int>)
  {
    |ps| == |roleIds| && forall i :: 0 <= i < |ps| ==> ps[i].roleId == roleIds[i]
  }

  /** Every node of the subtree carries one entry per role id. */
  ghost predicate ItemStaffed(item: Issue, roleIds: seq<int>)
    decreases item
  {
    HasRoles(item.personnel, roleIds) &&
    forall i :: 0 <= i < |item.children| ==> ItemStaffed(item.children[i], roleIds)
  }

  ghost predicate Staffed(items: seq<Issue>, roleIds: seq<int>)
  {
    forall i :: 0 <= i < |items| ==> ItemStaffed(items[i], roleIds)
  }

  lemma {:induction false} NodeAtStaffed(items: seq<Issue>, path: seq<nat>, roleIds: seq<int>)
    requires Staffed(items, roleIds) && ValidPath(items, path)
    ensures ItemStaffed(NodeAt(items, path), roleIds)
    decreases |path|
  {
    if |path| > 1 {
      NodeAtStaffed(items[path[0]].children, path[1..], roleIds);
    }
  }

  lemma {:induction false} ReplaceAtStaffed(items: seq<Issue>, path: seq<nat>, node: Issue, roleIds: seq<int>)
    requires Staffed(items, roleIds) && ValidPath(items, path) && ItemStaffed(node, roleIds)
    ensures Staffed(ReplaceAt(items, path, node), roleIds)
    decreases |path|
  {
    if |path| > 1 {
      var head := items[path[0]];
      ReplaceAtStaffed(head.children, path[1..], node, roleIds);
      assert ItemStaffed(head.(children := ReplaceAt(head.children, path[1..], node)), roleIds);
    }
  }

  /** Every operation of the table keeps one entry per role id on every node. */
  lemma ItemAddedStaffed(items: seq<Issue>, path: seq<nat>, levels: seq<HierarchyLevel>, roleIds: seq<int>,
                         levelIndex: nat, newId: int, personnelIds: seq<int>)
    requires Staffed(items, roleIds) && (path == [] || ValidPath(items, path))
    requires levelIndex < |levels| && |personnelIds| == |roleIds|
    ensures Staffed(ItemAdded(items, path, CreateNewItem(levels, roleIds, levelIndex, newId, personnelIds, DefaultProjectId)), roleIds)
  {
    var item := CreateNewItem(levels, roleIds, levelIndex, newId, personnelIds, DefaultProjectId);
    assert ItemStaffed(item, roleIds);
    if path != [] {
      var parent := NodeAt(items, path);
      NodeAtStaffed(items, path, roleIds);
      var grown := parent.(children := parent.children + [item]);
      assert ItemStaffed(grown, roleIds);
      ReplaceAtStaffed(items, path, grown, roleIds);
    }
  }

  lemma ItemDeletedStaffed(items: seq<Issue>, path: seq<nat>, roleIds: seq<int>)
    requires Staffed(items, roleIds)
    requires |path| == 1 || (|path| > 1 && ValidPath(items, path[..|path| - 1]))
    ensures Staffed(ItemDeleted(items, path), roleIds)
  {
    if |path| > 1 {
      var parentPath := path[..|path| - 1];
      var parent := NodeAt(items, parentPath);
      NodeAtStaffed(items, parentPath, roleIds);
      var shrunk := parent.(children := Splice(parent.children, path[|path| - 1]));
      assert ItemStaffed(shrunk, roleIds);
      ReplaceAtStaffed(items, parentPath, shrunk, roleIds);
    }
  }

  lemma ItemUpdatedStaffed(items: seq<Issue>, path: seq<nat>, f: Field, roleIds: seq<int>)
    requires Staffed(items, roleIds) && ValidPath(items, path)
    requires f.PersonnelField? ==> HasRoles(f.personnel, roleIds)
    ensures Staffed(ItemUpdated(items, path, f), roleIds)
  {
    NodeAtStaffed(items, path, roleIds);
    ReplaceAtStaffed(items, path, SetField(NodeAt(items, path), f), roleIds);
  }

  lemma PersonnelUpdatedStaffed(items: seq<Issue>, path: seq<nat>, roleId: int, hours: int, roleIds: seq<int>)
    requires Staffed(items, roleIds) && ValidPath(items, path)
    ensures Staffed(PersonnelUpdated(items, path, roleId, hours), roleIds)
  {
    var node := NodeAt(items, path);
    NodeAtStaffed(items, path, roleIds);
    ReplaceAtStaffed(items, path, node.(personnel := HoursSet(node.personnel, roleId, hours)), roleIds);
  }

  // --------------------------------------------------------------- row counts

  /**
   * calculateRowCount: a node at the last hierarchy level, or without
   * children, takes one row; any other node takes its children's rows.
   */
  function RowCount(levels: seq<HierarchyLevel>, item: Issue, level: nat): int
    decreases item
  {
    if level >= |levels| - 1 || item.children == [] then 1
    else ChildrenRowCount(levels, item.children, level + 1)
  }

  function ChildrenRowCount(levels: seq<HierarchyLevel>, items: seq<Issue>, level: nat): int
    decreases items
  {
    if items == [] then 0
    else ChildrenRowCount(levels, items[..|items| - 1], level) + RowCount(levels, items[|items| - 1], level)
  }

  /** No node of the subtree sits more than `depth - 1` levels below its root. */
  predicate FitsIn(item: Issue, depth: int)
    decreases item
  {
    item.children == [] ||
    (depth >= 2 && forall i :: 0 <= i < |item.children| ==> FitsIn(item.children[i], depth - 1))
  }

  /**
   * A node takes at least one row and at most one per leaf; exactly one per
   * leaf when the subtree does not reach below the last hierarchy level.
   */
  lemma {:induction false} RowCountIsLeafCount(levels: seq<HierarchyLevel>, item: Issue, level: nat)
    ensures 1 <= RowCount(levels, item, level) <= |ItemLeaves(item)|
    ensures FitsIn(item, |levels| - level) ==> RowCount(levels, item, level) == |ItemLeaves(item)|
    decreases item
  {
    ItemLeafCount(item);
    if !(level >= |levels| - 1 || item.children == []) {
      ChildrenRowCountIsLeafCount(levels, item.children, level + 1);
    }
  }

  lemma {:induction false} ChildrenRowCountIsLeafCount(levels: seq<HierarchyLevel>, items: seq<Issue>, level: nat)
    ensures |items| <= ChildrenRowCount(levels, items, level) <= |ItemsLeaves(items)|
    ensures (forall i :: 0 <= i < |items| ==> FitsIn(items[i], |levels| - level)) ==>
              ChildrenRowCount(levels, items, level) == |ItemsLeaves(items)|
    decreases items
  {
    if items != [] {
      var init := items[..|items| - 1];
      ChildrenRowCountIsLeafCount(levels, init, level);
      RowCountIsLeafCount(levels, items[|items| - 1], level);
      assert forall i :: 0 <= i < |init| ==> init[i] == items[i];
    }
  }

  // ------------------------------------------------------------ item lookup

  function Min(a: int, b: int): int { if a <= b then a else b }

  /** How many indices of `path` getItemAtLevel follows for `level`. */
  function Reach(path: seq<nat>, level: nat): nat
  {
    if path == [] then 0 else Min(level, |path| - 1) + 1
  }

  /**
   * getItemAtLevel: follows at most `level` steps below the root item the
   * path names. An index that misses on the last step yields no item
   * (`undefined`); a miss before it would crash, so it is excluded.
   */
  method GetItemAtLevel(items: seq<Issue>, path: seq<nat>, level: nat) returns (r: Option<Issue>)
    requires Reach(path, level) <= 1 || ValidPath(items, path[..Reach(path, level) - 1])
    ensures Reach(path, level) > 0 && ValidPath(items, path[..Reach(path, level)]) ==>
              r == Some(NodeAt(items, path[..Reach(path, level)]))
    ensures !(Reach(path, level) > 0 && ValidPath(items, path[..Reach(path, level)])) ==> r == None
  {
    if path == [] {
      return None;
    }
    var reach := Reach(path, level);
    assert path[..1] == [path[0]];
    var current: Option<Issue> := if path[0] < |items| then Some(items[path[0]]) else None;
    var i := 1;
    while i <= level && i < |path|
      invariant 1 <= i <= reach
      invariant ValidPath(items, path[..i]) ==> current == Some(NodeAt(items, path[..i]))
      invariant !ValidPath(items, path[..i]) ==> current == None
    {
      assert path[..reach - 1][..i] == path[..i];
      PrefixValid(items, path[..reach - 1], i);
      assert path[..i + 1] == path[..i] + [path[i]];
      ExtendPath(items, path[..i], path[i]);
      var node := current.value;
      current := if path[i] < |node.children| then Some(node.children[path[i]]) else None;
      i := i + 1;
    }
    r := current;
  }

  // ------------------------------------------------------------------ table

  /** Follows `path` from the root list to the node it names, one index at a time. */
  method Walk(items: seq<Issue>, path: seq<nat>) returns (current: Issue)
    requires ValidPath(items, path)
    ensures current == NodeAt(items, path)
  {
    current := items[path[0]];
    assert path[..1] == [path[0]];
    for i := 1 to |path|
      invariant ValidPath(items, path[..i]) && current == NodeAt(items, path[..i])
    {
      PrefixValid(items, path, i + 1);
      assert path[..i + 1] == path[..i] + [path[i]];
      ExtendPath(items, path[..i], path[i]);
      current := current.children[path[i]];
    }
    assert path[..|path|] == path;
  }

  /**
   * The component's root list together with its configuration. Each method
   * walks to the addressed node, changes it and installs the new list, as
   * `onUpdate(newData)` does.
   */
  class IssueTable {
    var issues: seq<Issue>
    const levels: seq<HierarchyLevel>
    const roleIds: seq<int>

    constructor (issues: seq<Issue>, levels: seq<HierarchyLevel>, roleIds: seq<int>)
      ensures this.issues == issues && this.levels == levels && this.roleIds == roleIds
    {
      this.issues := issues;
      this.levels := levels;
      this.roleIds := roleIds;
    }

    /** addItem(path, levelIndex); `newId` and `personnelIds` are the generated ids. */
    method AddItem(path: seq<nat>, levelIndex: nat, newId: int, personnelIds: seq<int>)
      requires path == [] || ValidPath(issues, path)
      requires levelIndex < |levels| && |personnelIds| == |roleIds|
      modifies this
      ensures issues == ItemAdded(old(issues), path,
                                  CreateNewItem(levels, roleIds, levelIndex, newId, personnelIds, DefaultProjectId))
    {
      var newData := issues;
      var item := CreateNewItem(levels, roleIds, levelIndex, newId, personnelIds, DefaultProjectId);
      if path == [] {
        newData := newData + [item];
      } else {
        var current := Walk(newData, path);
        current := current.(children := current.children + [item]);
        newData := ReplaceAt(newData, path, current);
      }
      issues := newData;
    }

    method DeleteItem(path: seq<nat>)
      requires |path| == 1 || (|path| > 1 && ValidPath(issues, path[..|path| - 1]))
      modifies this
      ensures issues == ItemDeleted(old(issues), path)
    {
      var newData := issues;
      if |path| == 1 {
        newData := Splice(newData, path[0]);
      } else {
        var parentPath := path[..|path| - 1];
        var current := Walk(newData, parentPath);
        current := current.(children := Splice(current.children, path[|path| - 1]));
        newData := ReplaceAt(newData, parentPath, current);
      }
      issues := newData;
    }

    method UpdateItem(path: seq<nat>, f: Field)
      requires ValidPath(issues, path)
      modifies this
      ensures issues == ItemUpdated(old(issues), path, f)
    {
      var newData := issues;
      var current := Walk(newData, path);
      current := SetField(current, f);
      newData := ReplaceAt(newData, path, current);
      issues := newData;
    }

    method UpdatePersonnel(path: seq<nat>, roleId: int, hours: int)
      requires ValidPath(issues, path)
      modifies this
      ensures issues == PersonnelUpdated(old(issues), path, roleId, hours)
    {
      var newData := issues;
      var current := Walk(newData, path);
      var personnelIndex := FindRole(current.personnel, roleId);
      if personnelIndex != -1 {
        var personnel := current.personnel;
        personnel := personnel[personnelIndex := personnel[personnelIndex].(estimateHours := hours)];
        current := current.(personnel := personnel);
      }
      newData := ReplaceAt(newData, path, current);
      issues := newData;
    }
  }
}

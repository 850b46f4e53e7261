# Estimate tree: a verified model

This project models the core of an estimate-management application. A project estimate is a tree. Each epic holds stories, each story holds tasks, and each task holds sub-tasks. Every node has a name and a list of per-role hours (DEV, BA, TESTER).

Five Dafny modules cover the core:

- `EstimateTypes` (`estimate_types.dfy`) holds the node shapes of the front end.
- `EstimateTable` (`estimate_table.dfy`) models the fixed four-level table:
  - per-node totals;
  - the grand total, in which a node's own hours count only when it has no children at the next level;
  - the row counts the table lays out;
  - the add, update and delete operations of each level, and the hours edit.
- `IssueTree` (`issue_tree.dfy`) models the generic table. Issues have any number of children and are addressed by an index path. It has the same roll-up, path-walking add, delete and update operations, and row counts that stop at the last configured hierarchy level.
- `ApiModels` (`api_models.dfy`) models two parts of the back end's records:
  - the duplicate-free list of clients editing an estimate;
  - the routing of a personnel row to the one foreign key its entity type names.
- `LiveUpdate` (`live_update.dfy`) models collaborative editing:
  - how a message relayed from another client is merged into the page state;
  - how a local change of the epic list is announced.

`Lists` (`lists.dfy`) and `Wrappers` (`wrappers.dfy`) hold the shared helpers: left folds written as `reduce` computes them, `splice(index, 1)`, and an option type.

Nodes are values (datatypes). The components mutate arrays in place after a shallow copy of the root list. Each such component is a class whose field holds the root list (`EstimateTable.Table`, `IssueTree.IssueTable`). Each method takes the list apart down to the addressed node, makes the one change, and installs the result. Each method is proved equal to a specification function on the list. The lemmas about those functions carry the properties:

- nothing else changes;
- the grand total moves by exactly the expected amount;
- a delete undoes an add;
- every node keeps one entry per role.

## Model

| member | source | states |
|---|---|---|
| `Lists.Splice` | estimate-management-fe/src/components/estimate/EstimateTable.tsx:214-218 | `splice(index, 1)` removes exactly the element at `index`: the list shrinks by one, the elements before and after keep their order, and the multiset loses that one element. An index past the end removes nothing. |
| `Lists.SumOfAppend` | estimate-management-fe/src/components/estimate/EstimateTable.tsx:30-32 | A `reduce` sum over a concatenation is the sum of the two sums. |
| `Lists.SumOfFlatMap` | estimate-management-fe/src/components/estimate/EstimateTable.tsx:35-61 | Summing over a flattened list equals summing, element by element, the sums over its parts. The leaf-sum proofs rest on this. |
| `Lists.SumOfUpdate` | estimate-management-fe/src/components/estimate/EstimateTable.tsx:119-127 | Replacing one element moves a sum by exactly the difference of the two measures. |
| `Lists.SumOfRemove` | estimate-management-fe/src/components/estimate/EstimateTable.tsx:214-218 | Removing one element takes exactly its measure off a sum. |
| `EstimateTable.TotalBoundsEntries` | estimate-management-fe/src/components/estimate/EstimateTable.tsx:30-32 | `CalculateTotal` (calculateTotal) of an empty list is 0. With no negative hours, the total is non-negative and at least every single entry. |
| `EstimateTable.TotalAfterEntryChange` | estimate-management-fe/src/components/estimate/EstimateTable.tsx:30-32 | Changing one entry moves the total by the change in that entry's value. |
| `EstimateTable.ZeroPersonnelIsBlank` | estimate-management-fe/src/components/estimate/EstimateTable.tsx:24 | `ZeroPersonnel`, the personnel `NewEpic`, `NewStory`, `NewTask` and `NewSubTask` give every new node (the object literals at EstimateTable.tsx:63-117), has one entry per role in the order DEV, BA, TESTER. Every value is 0, so it totals 0. |
| `Lists.FindIndex` | estimate-management-fe/src/components/estimate/EstimateTable.tsx:205 | `findIndex(p)` gives the first index whose element satisfies `p`, or -1 exactly when none does. `EstimateTable.FindKind` (the lookup by `type` here) and `IssueTree.FindRole` (the lookup by `role_id` at TestEstimateTable.tsx:174-176) are this function with their predicate. |
| `EstimateTable.PersonnelSet` | estimate-management-fe/src/components/estimate/EstimateTable.tsx:205-208 | The first entry of the role gets the new value and every other entry is unchanged. With no entry of that role, the list is unchanged. |
| `EstimateTable.TotalAfterPersonnelSet` | estimate-management-fe/src/components/estimate/EstimateTable.tsx:205-208 | The node's total moves by exactly the change made to the matched entry. |
| `EstimateTable.TaskRollUpIsLeafSum` | estimate-management-fe/src/components/estimate/EstimateTable.tsx:45-53 | `TaskRollUp`, a task's contribution, is its own total when it has no sub-tasks, otherwise the sum over its sub-tasks. Either way it equals the sum of `calculateTotal` over the task's leaves. |
| `EstimateTable.StoryRollUpIsLeafSum` | estimate-management-fe/src/components/estimate/EstimateTable.tsx:40-56 | `StoryRollUp`, a story's contribution, equals the sum of `calculateTotal` over its leaves. |
| `EstimateTable.EpicRollUpIsLeafSum` | estimate-management-fe/src/components/estimate/EstimateTable.tsx:36-58 | `EpicRollUp`, an epic's contribution, equals the sum of `calculateTotal` over its leaves. |
| `EstimateTable.GrandTotalIsLeafSum` | estimate-management-fe/src/components/estimate/EstimateTable.tsx:35-61 | `GrandTotal` (calculateGrandTotal, summing `EpicRollUp`, `StoryRollUp`, `TaskRollUp` and `SubTaskRollUp`) is the sum of `calculateTotal` over exactly the leaf rows, and 0 with no epics. |
| `EstimateTable.CalculateGrandTotal` | estimate-management-fe/src/components/estimate/EstimateTable.tsx:35-61 | The four nested loops that accumulate into `total` return the leaf-only roll-up, which is the sum over the leaves. |
| `EstimateTable.TaskRowCountIsLeafCount` | estimate-management-fe/src/components/estimate/EstimateTable.tsx:484-487 | `TaskRowCount` (taskRowCount): a task takes max(1, number of sub-tasks) rows, which is its number of leaves and at least 1. |
| `EstimateTable.StoryRowCountIsLeafCount` | estimate-management-fe/src/components/estimate/EstimateTable.tsx:374-381 | `StoryRowCount` (storyRowCount): a story takes 1 row without tasks, otherwise the sum of its tasks' rows. That is its number of leaves, at least 1. |
| `EstimateTable.EpicRowCountIsLeafCount` | estimate-management-fe/src/components/estimate/EstimateTable.tsx:295-309 | `EpicRowCount` (epicRowCount): an epic takes 1 row without stories, otherwise the sum of its stories' rows. That is its number of leaves, at least 1. |
| `EstimateTable.EpicAdded` | estimate-management-fe/src/components/estimate/EstimateTable.tsx:63-71 | One epic is appended at the end. Earlier epics are unchanged. The new epic has the given id, name "", no stories and zero personnel. |
| `EstimateTable.StoryAdded` | estimate-management-fe/src/components/estimate/EstimateTable.tsx:73-83 | Only epic `ei` changes, and only by one blank story pushed at the end of its stories. |
| `EstimateTable.TaskAdded` | estimate-management-fe/src/components/estimate/EstimateTable.tsx:85-95 | Only the addressed story changes, and only by one blank task pushed at the end. Every other epic and story is unchanged. |
| `EstimateTable.SubTaskAdded` | estimate-management-fe/src/components/estimate/EstimateTable.tsx:97-117 | Only the addressed task changes, and only by one blank sub-task pushed at the end. |
| `EstimateTable.EpicUpdated` | estimate-management-fe/src/components/estimate/EstimateTable.tsx:119-127 | `{ ...epic, [field]: value }` changes exactly the named field of epic `ei`. Its other fields and all other epics are unchanged. |
| `EstimateTable.StoryUpdated` | estimate-management-fe/src/components/estimate/EstimateTable.tsx:129-141 | Exactly one field of the addressed story changes. Its siblings and every other epic are unchanged. |
| `EstimateTable.TaskUpdated` | estimate-management-fe/src/components/estimate/EstimateTable.tsx:143-156 | Exactly one field of the addressed task changes. Nothing else changes. |
| `EstimateTable.SubTaskUpdated` | estimate-management-fe/src/components/estimate/EstimateTable.tsx:158-176 | Exactly one field of the addressed sub-task changes. Nothing else changes. |
| `EstimateTable.PersonnelUpdated` | estimate-management-fe/src/components/estimate/EstimateTable.tsx:178-211 | The addressed node becomes the old node with only its personnel replaced, by `PersonnelSet` of the old one: the first matching role is set, and no match means no change. Its siblings at every level above it, its ancestors' own fields and every other epic are unchanged. Whether it is a leaf is unchanged. |
| `EstimateTable.StoryDeleted` | estimate-management-fe/src/components/estimate/EstimateTable.tsx:220-224 | Only epic `ei` changes: its story list becomes the splice at `si`. |
| `EstimateTable.TaskDeleted` | estimate-management-fe/src/components/estimate/EstimateTable.tsx:226-234 | Only the addressed story's task list changes, by the splice at `ti`. |
| `EstimateTable.SubTaskDeleted` | estimate-management-fe/src/components/estimate/EstimateTable.tsx:236-248 | Only the addressed task's sub-task list changes, by the splice at `sti`. |
| `EstimateTable.GrandTotalWithEpic` | estimate-management-fe/src/components/estimate/EstimateTable.tsx:35-61 | Replacing one epic moves the grand total by the change in that epic's roll-up. |
| `EstimateTable.GrandTotalWithStory` | estimate-management-fe/src/components/estimate/EstimateTable.tsx:35-61 | Replacing one story moves the grand total by the change in that story's roll-up. |
| `EstimateTable.GrandTotalWithTask` | estimate-management-fe/src/components/estimate/EstimateTable.tsx:35-61 | Replacing one task moves the grand total by the change in that task's roll-up. |
| `EstimateTable.GrandTotalWithSubTask` | estimate-management-fe/src/components/estimate/EstimateTable.tsx:35-61 | Replacing one sub-task moves the grand total by the change in its own total. |
| `EstimateTable.EpicAddedRollUp` | estimate-management-fe/src/components/estimate/EstimateTable.tsx:63-71 | Adding an epic does not change the grand total: it is a zero-hour leaf. |
| `EstimateTable.StoryAddedRollUp` | estimate-management-fe/src/components/estimate/EstimateTable.tsx:73-83 | Adding a story to an epic without stories takes that epic's own hours out of the grand total. Otherwise the total does not move. |
| `EstimateTable.TaskAddedRollUp` | estimate-management-fe/src/components/estimate/EstimateTable.tsx:85-95 | Adding a task to a story without tasks takes that story's own hours out of the grand total. Otherwise nothing moves. |
| `EstimateTable.SubTaskAddedRollUp` | estimate-management-fe/src/components/estimate/EstimateTable.tsx:97-117 | Adding a sub-task to a task without sub-tasks takes that task's own hours out of the grand total. Otherwise nothing moves. |
| `EstimateTable.EpicDeletedRollUp` | estimate-management-fe/src/components/estimate/EstimateTable.tsx:214-218 | `EpicDeleted` (deleteEpic, the splice of the epic list) takes exactly the deleted epic's roll-up out of the grand total. An out-of-range index changes nothing. |
| `EstimateTable.StoryDeletedRollUp` | estimate-management-fe/src/components/estimate/EstimateTable.tsx:220-224 | Deleting a story takes its roll-up out. Deleting an epic's last story brings the epic's own hours back. |
| `EstimateTable.TaskDeletedRollUp` | estimate-management-fe/src/components/estimate/EstimateTable.tsx:226-234 | Deleting a task takes its roll-up out. Deleting a story's last task brings the story's own hours back. |
| `EstimateTable.SubTaskDeletedRollUp` | estimate-management-fe/src/components/estimate/EstimateTable.tsx:236-248 | Deleting a sub-task takes its total out. Deleting a task's last sub-task brings the task's own hours back. |
| `EstimateTable.PersonnelUpdatedRollUp` | estimate-management-fe/src/components/estimate/EstimateTable.tsx:178-211 | An hours edit moves the grand total by the change to the node's own total when the node is a leaf row. When it has children, the total does not move. |
| `EstimateTable.RenameKeepsGrandTotal` | estimate-management-fe/src/components/estimate/EstimateTable.tsx:119-176 | Updating the id or name of any node leaves the grand total unchanged. |
| `EstimateTable.EpicDeleteUndoesAdd` | estimate-management-fe/src/components/estimate/EstimateTable.tsx:63-71 | Deleting the epic just added, at the index it was appended to, gives back the original list. |
| `EstimateTable.StoryDeleteUndoesAdd` | estimate-management-fe/src/components/estimate/EstimateTable.tsx:73-83 | Deleting the story just pushed gives back the original tree. |
| `EstimateTable.TaskDeleteUndoesAdd` | estimate-management-fe/src/components/estimate/EstimateTable.tsx:85-95 | Deleting the task just pushed gives back the original tree. |
| `EstimateTable.SubTaskDeleteUndoesAdd` | estimate-management-fe/src/components/estimate/EstimateTable.tsx:97-117 | Deleting the sub-task just pushed gives back the original tree. |
| `EstimateTable.AddKeepsWellFormed` | estimate-management-fe/src/components/estimate/EstimateTable.tsx:63-117 | Every add keeps one personnel entry per role, in role order, on every node. |
| `EstimateTable.DeleteKeepsWellFormed` | estimate-management-fe/src/components/estimate/EstimateTable.tsx:214-248 | Every delete keeps one personnel entry per role on every node. |
| `EstimateTable.PersonnelUpdateKeepsWellFormed` | estimate-management-fe/src/components/estimate/EstimateTable.tsx:178-211 | An hours edit keeps one personnel entry per role on every node. |
| `EstimateTable.Table.constructor` | estimate-management-fe/src/components/estimate/EstimateTable.tsx:20-23 | The table holds exactly the epic list it is given as `epics`. |
| `EstimateTable.Table.AddEpic` | estimate-management-fe/src/components/estimate/EstimateTable.tsx:63-71 | The installed list is `EpicAdded` of the old one. |
| `EstimateTable.Table.AddStory` | estimate-management-fe/src/components/estimate/EstimateTable.tsx:73-83 | The push onto the epic's stories leaves the list equal to `StoryAdded` of the old one. |
| `EstimateTable.Table.AddTask` | estimate-management-fe/src/components/estimate/EstimateTable.tsx:85-95 | The push onto the story's tasks leaves the list equal to `TaskAdded` of the old one. |
| `EstimateTable.Table.AddSubTask` | estimate-management-fe/src/components/estimate/EstimateTable.tsx:97-117 | The push onto the task's sub-tasks leaves the list equal to `SubTaskAdded` of the old one. |
| `EstimateTable.Table.UpdateEpic` | estimate-management-fe/src/components/estimate/EstimateTable.tsx:119-127 | The list becomes `EpicUpdated` of the old one. |
| `EstimateTable.Table.UpdateStory` | estimate-management-fe/src/components/estimate/EstimateTable.tsx:129-141 | The list becomes `StoryUpdated` of the old one. |
| `EstimateTable.Table.UpdateTask` | estimate-management-fe/src/components/estimate/EstimateTable.tsx:143-156 | The list becomes `TaskUpdated` of the old one. |
| `EstimateTable.Table.UpdateSubTask` | estimate-management-fe/src/components/estimate/EstimateTable.tsx:158-176 | The list becomes `SubTaskUpdated` of the old one. |
| `EstimateTable.Table.UpdatePersonnel` | estimate-management-fe/src/components/estimate/EstimateTable.tsx:178-211 | The node is located by level, the role found with `findIndex`, and the value written. The list becomes `PersonnelUpdated` of the old one. |
| `EstimateTable.Table.DeleteEpic` | estimate-management-fe/src/components/estimate/EstimateTable.tsx:214-218 | The list becomes `EpicDeleted` of the old one: the splice at `epicIndex`. |
| `EstimateTable.Table.DeleteStory` | estimate-management-fe/src/components/estimate/EstimateTable.tsx:220-224 | The list becomes `StoryDeleted` of the old one. |
| `EstimateTable.Table.DeleteTask` | estimate-management-fe/src/components/estimate/EstimateTable.tsx:226-234 | The list becomes `TaskDeleted` of the old one. |
| `EstimateTable.Table.DeleteSubTask` | estimate-management-fe/src/components/estimate/EstimateTable.tsx:236-248 | The list becomes `SubTaskDeleted` of the old one. |
| `IssueTree.ZeroHoursTotal` | estimate-management-fe/src/components/estimate/TestEstimateTable.tsx:65-67 | `IssueTree.CalculateTotal` (calculateTotal, the `estimate_hours` reduce) of personnel whose entries all have 0 hours is 0. |
| `IssueTree.ItemsTotalIsSumOf` | estimate-management-fe/src/components/estimate/TestEstimateTable.tsx:70-83 | `ItemsTotal`, the roll-up of a list, is the `reduce` sum of `ItemTotal`, the roll-ups of its items. |
| `IssueTree.GrandTotalIsLeafSum` | estimate-management-fe/src/components/estimate/TestEstimateTable.tsx:70-83 | The recursive grand total is the sum of `calculateTotal` over exactly the leaves, and 0 for no items. |
| `IssueTree.ItemTotalIsLeafSum` | estimate-management-fe/src/components/estimate/TestEstimateTable.tsx:73-79 | `ItemTotal` (what `calculateRecursive` adds for one item) is its own total if it has no children, else what its children contribute. That equals the sum over its leaves. |
| `IssueTree.ItemsLeafCount` | estimate-management-fe/src/components/estimate/TestEstimateTable.tsx:73-79 | A list of items has at least as many leaves as items. |
| `IssueTree.ItemLeafCount` | estimate-management-fe/src/components/estimate/TestEstimateTable.tsx:73-79 | Every item has at least one leaf. |
| `IssueTree.CalculateGrandTotal` | estimate-management-fe/src/components/estimate/TestEstimateTable.tsx:70-83 | The running total over the root items ends as the leaf-only roll-up, which is the sum over the leaves. |
| `IssueTree.CalculateRecursive` | estimate-management-fe/src/components/estimate/TestEstimateTable.tsx:73-79 | Visiting an item adds exactly its roll-up to the running total. |
| `IssueTree.NewPersonnel` | estimate-management-fe/src/components/estimate/TestEstimateTable.tsx:96-101 | One entry per role id, in role-id order, with 0 hours and `issue_id` equal to the new item's id. |
| `IssueTree.CreateNewItem` | estimate-management-fe/src/components/estimate/TestEstimateTable.tsx:86-103 | The new item has title "", no children, no parent or creation time, and the level's `type_id`. Its personnel has one zero entry per role id, so it is a leaf whose roll-up is 0. |
| `IssueTree.ReplaceAt` | estimate-management-fe/src/components/estimate/TestEstimateTable.tsx:114-118 | Writing a node at a path keeps the root list's length, and the path then leads to the new node. |
| `IssueTree.PrefixValid` | estimate-management-fe/src/components/estimate/TestEstimateTable.tsx:114-117 | `ValidPath` says a path resolves and `NodeAt` is the node the walk reaches. Every non-empty prefix of a path that resolves also resolves, so the walk never steps into a missing node. |
| `IssueTree.ExtendPath` | estimate-management-fe/src/components/estimate/TestEstimateTable.tsx:115-117 | One more index resolves exactly when it is within the current node's children, and leads to that child. |
| `IssueTree.ReplaceAtElsewhere` | estimate-management-fe/src/components/estimate/TestEstimateTable.tsx:106-182 | Every node on a path that parts from the written one is unchanged. |
| `IssueTree.ReplaceAtAncestors` | estimate-management-fe/src/components/estimate/TestEstimateTable.tsx:106-182 | The nodes above the written one keep every field but their children, and keep the same number of children. |
| `IssueTree.ReplaceAtSame` | estimate-management-fe/src/components/estimate/TestEstimateTable.tsx:106-182 | Writing back the node already at a path changes nothing. |
| `IssueTree.ReplaceAtTwice` | estimate-management-fe/src/components/estimate/TestEstimateTable.tsx:106-182 | A second write at the same path overrides the first. |
| `IssueTree.ReplaceAtTotal` | estimate-management-fe/src/components/estimate/TestEstimateTable.tsx:70-83 | Writing a node moves the grand total by exactly the change in that node's roll-up. |
| `IssueTree.SetField` | estimate-management-fe/src/components/estimate/TestEstimateTable.tsx:157 | `current[field] = value` changes exactly the title or the personnel. |
| `IssueTree.ItemAdded` | estimate-management-fe/src/components/estimate/TestEstimateTable.tsx:106-122 | With an empty path the item is appended to the root list. Otherwise the node at the path gains it as its last child, and the root list keeps its length. |
| `IssueTree.ItemDeleted` | estimate-management-fe/src/components/estimate/TestEstimateTable.tsx:125-141 | A path of length 1 splices the root list. A longer path splices the last index out of the children of the node its prefix reaches. |
| `IssueTree.ItemUpdated` | estimate-management-fe/src/components/estimate/TestEstimateTable.tsx:144-159 | The node at the path becomes the old node with the one field written. |
| `IssueTree.HoursSet` | estimate-management-fe/src/components/estimate/TestEstimateTable.tsx:174-179 | The first entry of the role gets the hours and the others are unchanged. With no match there is no change. The total moves by exactly the change made. |
| `IssueTree.PersonnelUpdated` | estimate-management-fe/src/components/estimate/TestEstimateTable.tsx:161-182 | The node at the path keeps everything but its personnel, which becomes `HoursSet` of the old personnel. |
| `IssueTree.AddedItemReachable` | estimate-management-fe/src/components/estimate/TestEstimateTable.tsx:106-122 | After an add, the new item sits one step below the path, at the index equal to the old number of children. |
| `IssueTree.ItemAddedTotal` | estimate-management-fe/src/components/estimate/TestEstimateTable.tsx:106-122 | An add increases the grand total by the new item's roll-up. When the parent had no children, the parent's own hours also leave the total. |
| `IssueTree.ItemDeletedTotal` | estimate-management-fe/src/components/estimate/TestEstimateTable.tsx:125-141 | A delete takes the removed item's roll-up out of the grand total. Deleting a node's last child brings that node's own hours back. |
| `IssueTree.PersonnelUpdatedTotal` | estimate-management-fe/src/components/estimate/TestEstimateTable.tsx:161-182 | An hours edit moves the grand total only when the node is a leaf, and then by the change to its total. |
| `IssueTree.TitleUpdateKeepsTotal` | estimate-management-fe/src/components/estimate/TestEstimateTable.tsx:144-159 | Renaming never changes the grand total. |
| `IssueTree.ItemDeleteUndoesAdd` | estimate-management-fe/src/components/estimate/TestEstimateTable.tsx:106-141 | Deleting the item just added, at its new path, gives back the original tree. |
| `IssueTree.NodeAtStaffed` | estimate-management-fe/src/components/estimate/TestEstimateTable.tsx:96-101 | In a tree whose every node has one entry per role id, the node at any path has one too. |
| `IssueTree.ReplaceAtStaffed` | estimate-management-fe/src/components/estimate/TestEstimateTable.tsx:96-101 | Writing a node that has one entry per role id into such a tree keeps the property everywhere. |
| `IssueTree.ItemAddedStaffed` | estimate-management-fe/src/components/estimate/TestEstimateTable.tsx:86-122 | Adding a newly created item keeps one entry per role id on every node. |
| `IssueTree.ItemDeletedStaffed` | estimate-management-fe/src/components/estimate/TestEstimateTable.tsx:125-141 | A delete keeps one entry per role id on every node. |
| `IssueTree.ItemUpdatedStaffed` | estimate-management-fe/src/components/estimate/TestEstimateTable.tsx:144-159 | A title write keeps one entry per role id on every node. A personnel write keeps it when the new list has one entry per role id. |
| `IssueTree.PersonnelUpdatedStaffed` | estimate-management-fe/src/components/estimate/TestEstimateTable.tsx:161-182 | An hours edit keeps one entry per role id on every node. |
| `IssueTree.RowCountIsLeafCount` | estimate-management-fe/src/components/estimate/TestEstimateTable.tsx:185-199 | `RowCount` (calculateRowCount) with `ChildrenRowCount` (its reduce over the children): a node takes at least 1 row and at most one per leaf. It takes exactly one per leaf when its subtree does not reach below the last hierarchy level. |
| `IssueTree.ChildrenRowCountIsLeafCount` | estimate-management-fe/src/components/estimate/TestEstimateTable.tsx:194-198 | The children's rows sum to at least their number and at most their leaves, with equality when they fit within the levels. |
| `IssueTree.GetItemAtLevel` | estimate-management-fe/src/components/estimate/TestEstimateTable.tsx:202-208 | Returns the node reached by following `path[0..min(level, length-1)]`. When that last index misses, it returns nothing (`undefined`). |
| `IssueTree.Walk` | estimate-management-fe/src/components/estimate/TestEstimateTable.tsx:114-117 | The `current = current.children[indices[i]]` loop ends at the node the path names. |
| `IssueTree.IssueTable.constructor` | estimate-management-fe/src/components/estimate/TestEstimateTable.tsx:38-59 | The table holds exactly the given issues, hierarchy levels and role ids. |
| `IssueTree.IssueTable.AddItem` | estimate-management-fe/src/components/estimate/TestEstimateTable.tsx:106-122 | The installed list is `ItemAdded` of the old one with the item `createNewItem` builds for the level. |
| `IssueTree.IssueTable.DeleteItem` | estimate-management-fe/src/components/estimate/TestEstimateTable.tsx:125-141 | The installed list is `ItemDeleted` of the old one. |
| `IssueTree.IssueTable.UpdateItem` | estimate-management-fe/src/components/estimate/TestEstimateTable.tsx:144-159 | The installed list is `ItemUpdated` of the old one. |
| `IssueTree.IssueTable.UpdatePersonnel` | estimate-management-fe/src/components/estimate/TestEstimateTable.tsx:161-182 | The installed list is `PersonnelUpdated` of the old one. |
| `ApiModels.IdOr` | estimate-api/models.py:23 | `id or uuid`: a given non-empty id is kept, otherwise the generated one is used. |
| `ApiModels.IndexOf` | estimate-api/models.py:40 | The first position of a client in the list, or -1 exactly when it is absent. |
| `ApiModels.EditorAdded` | estimate-api/models.py:29-35 | After an add the client is listed. An absent client is appended at the end, and a listed one leaves the list unchanged. |
| `ApiModels.RemoveFirst` | estimate-api/models.py:37-43 | `list.remove` drops exactly the first occurrence. The list shrinks by one and loses one copy of the client. An absent client changes nothing. |
| `ApiModels.AddKeepsNoDuplicates` | estimate-api/models.py:29-35 | A duplicate-free editor list stays duplicate-free after an add. |
| `ApiModels.RemoveKeepsNoDuplicates` | estimate-api/models.py:37-43 | A duplicate-free list stays duplicate-free after a remove, and the removed client is then absent. |
| `ApiModels.RemoveUndoesAdd` | estimate-api/models.py:29-43 | Adding an absent client and then removing it restores the original list. |
| `ApiModels.OthersUntouched` | estimate-api/models.py:29-43 | Adding or removing a client leaves the other editors, and their order, unchanged. |
| `ApiModels.Estimate.constructor` | estimate-api/models.py:22-27 | A new estimate has the given or generated id and the given fields, and starts with no active editors. |
| `ApiModels.Estimate.AddActiveEditor` | estimate-api/models.py:29-35 | Returns true exactly when the client was absent. The list becomes `EditorAdded` of the old one, and the other fields do not change. |
| `ApiModels.Estimate.RemoveActiveEditor` | estimate-api/models.py:37-43 | Returns true exactly when the client was listed. The list becomes `RemoveFirst` of the old one, and the other fields do not change. |
| `ApiModels.Estimate.GetActiveEditors` | estimate-api/models.py:45-46 | Returns exactly the stored list. |
| `ApiModels.RouteForeignKey` | estimate-api/models.py:186-194 | Each of `epic_id`, `story_id`, `task_id` and `subtask_id` is set exactly when `entity_type` names it, and then holds the entity id. One key is set for the four known types, none for any other. |
| `ApiModels.Personnel.constructor` | estimate-api/models.py:179-194 | The row's foreign keys are those `RouteForeignKey` gives, and the other fields are as passed. |
| `LiveUpdate.PayloadId` | estimate-management-fe/src/pages/CreateEstimate.tsx:152-170 | `data.data.id` is the epic's id or the given id. A `{ value }` payload has none. |
| `LiveUpdate.ReplaceById` | estimate-management-fe/src/pages/CreateEstimate.tsx:151-153 | The `map` keeps the length and replaces exactly the epics whose id matches. |
| `LiveUpdate.RemoveById` | estimate-management-fe/src/pages/CreateEstimate.tsx:156 | The `filter` leaves no epic with the id and never grows the list. |
| `LiveUpdate.RemoveByIdAbsent` | estimate-management-fe/src/pages/CreateEstimate.tsx:156 | Filtering out an id no epic has changes nothing. |
| `LiveUpdate.RemoveByIdAppend` | estimate-management-fe/src/pages/CreateEstimate.tsx:156 | The filter works part by part, so the remaining epics keep their order. |
| `LiveUpdate.RemoveByIdUnique` | estimate-management-fe/src/pages/CreateEstimate.tsx:156 | With unique ids, filtering out the id of epic `k` is the splice at `k`. |
| `LiveUpdate.ReplaceByIdUnique` | estimate-management-fe/src/pages/CreateEstimate.tsx:151-153 | With unique ids, mapping in an epic with the id of epic `k` replaces just epic `k`. |
| `LiveUpdate.HandleIncomingUpdate` | estimate-management-fe/src/pages/CreateEstimate.tsx:143-174 | An epic add appends the epic, an update maps by id, and a delete filters by id. "project_name" and "start_date" set only that field. "estimate"/"load_draft" sets only the notification (shown, draft id, sender). Unknown types or actions change nothing. |
| `LiveUpdate.IncomingUpdateFrame` | estimate-management-fe/src/pages/CreateEstimate.tsx:150-154 | An epic update keeps the length and every epic with another id. An unknown id changes nothing. |
| `LiveUpdate.IncomingDeleteFrame` | estimate-management-fe/src/pages/CreateEstimate.tsx:155-157 | After an epic delete no epic has the id, and an unknown id changes nothing. With unique ids the result is the splice at the epic's index. |
| `LiveUpdate.FirstAbsent` | estimate-management-fe/src/pages/CreateEstimate.tsx:405-407 | The `find`/`some` search gives the first epic whose id the other list lacks, or none exactly when every id is present. |
| `LiveUpdate.ResizeAnnouncement` | estimate-management-fe/src/pages/CreateEstimate.tsx:402-419 | A longer list announces "add" of the first new epic whose id the old list lacks. A shorter list announces "delete" of the first old epic whose id the new list lacks. |
| `LiveUpdate.AnnouncementAsWritten` | estimate-management-fe/src/pages/CreateEstimate.tsx:420-430 | As written, a list of the same length always announces "update" of its first epic, and nothing when it is empty. |
| `LiveUpdate.AsWrittenMissesLaterEdit` | estimate-management-fe/src/pages/CreateEstimate.tsx:423-425 | Editing the second of two epics announces the first. A peer applying that announcement keeps the stale second epic. |
| `LiveUpdate.FirstChanged` | estimate-management-fe/src/pages/CreateEstimate.tsx:422-425 | The first index where the two lists differ, or -1 exactly when they are equal. |
| `LiveUpdate.Announcement` | estimate-management-fe/src/pages/CreateEstimate.tsx:400-430 | The corrected classification announces nothing when the list is unchanged. A changed list of the same length announces "update" of an epic taken from the new list. |
| `LiveUpdate.AnnouncementNamesChangedEpic` | estimate-management-fe/src/pages/CreateEstimate.tsx:420-430 | With equal lengths and a change, the announced epic is the new one at the first index where the two lists differ; every epic before it is unchanged. |
| `LiveUpdate.HandleEpicsUpdate` | estimate-management-fe/src/pages/CreateEstimate.tsx:400-433 | The page always installs `newEpics` and changes nothing else. The announcement is the classification of the change. |
| `LiveUpdate.AddReachesPeer` | estimate-management-fe/src/pages/CreateEstimate.tsx:147-149 | An epic appended with a fresh id is announced as that "add". A peer with the same epics that applies it reaches exactly the sender's state. |
| `LiveUpdate.DeleteReachesPeer` | estimate-management-fe/src/pages/CreateEstimate.tsx:155-157 | With unique ids, a spliced-out epic is announced as "delete" of its id. The peer's filter reaches exactly the sender's state. |
| `LiveUpdate.UpdateReachesPeer` | estimate-management-fe/src/pages/CreateEstimate.tsx:150-154 | With unique ids, an epic edited in place (same id) is announced as that "update". The peer's map reaches exactly the sender's state. |

## Left out

- Rendering is not modelled. That covers the JSX of both tables, the `epicRendered`/`storyRendered`/`renderedCells` cell-suppression flags and the `rowSpan` layout. Only the row-count arithmetic is modelled.
- Aliasing is not modelled. The components shallow-copy the root list and then write into nested arrays and objects they share with the caller. The model rebuilds the path down to the node and installs a new list, so the caller's old list is never changed.
  - As a consequence, the `epics` compared in `handleEpicsUpdate` is the pre-change value here. In the page it can already contain nested edits.
- A missing child list (`!task.subTasks`, `!item.children`) is the empty list in the model. Every operation treats the two alike, except that a `splice` on a missing list would crash in the page; here it removes nothing.
- Indices are natural numbers. A negative `splice` index (which counts from the end in JavaScript) is not modelled. A path that does not resolve crashes in the page, so it is a precondition here.
- Hours are integers. The page stores JavaScript numbers coerced with `Number(...)`, and the back end stores floats.
- Generated ids are parameters supplied by the caller: `uuidv4()`, `uuid.uuid4()`, `Date.now() + Math.random()`.
- `EstimateTable.Table.UpdateEpic` and the other `update*` methods write only the fields the table writes: id, name and personnel for the fixed table; title and personnel for the generic one (`IssueTree.IssueTable.UpdateItem`). Writes to other keys through the dynamic `[field]` are not modelled.
- `IssueTree.IssueTable.constructor` takes the role ids as a list. `Object.keys(roleMapping).map(Number)` and the role names are not modelled; the default ids are `DefaultRoleIds`.
- `IssueTree.GetItemAtLevel` requires every index but the last one it follows to resolve. The page would crash on a miss before the last step.
- `LiveUpdate.HandleIncomingUpdate` leaves the state unchanged for a payload whose shape no sender uses with that message. Examples are an epic "add" or "update" without a whole epic, or a "project_name" without `value`. The page would store whatever arrived, including `undefined`.
- `LiveUpdate.HandleEpicsUpdate` announces an edit with the corrected classification (`Announcement`). The code as written is `AnnouncementAsWritten`; see Findings.
- Network and I/O are not modelled:
  - the socket emits in `sendUpdate` and the field inputs;
  - the Socket.IO relay and room handling in estimate-api/app.py;
  - REST calls, the Redmine request and the connection lifecycle.
- The relay's dropping of messages with an empty `data` is part of estimate-api/app.py, which is not part of this model.
- The editor list is stored as JSON text (`json.loads`/`json.dumps`). Here it is the list itself. SQLAlchemy columns, relationships, `to_dict`, `Draft`, estimate-api/routes.py, config and database set-up are not part of this model.
- `ApiModels.Estimate.constructor` and `ApiModels.Personnel.constructor` take every argument explicitly. The Python defaults (`is_draft=True`, `value=0`, `id=None`) are what a caller passes. The start date is a string.
- The page's own list of active editors (`editor_joined`/`editor_left`), drafts, local storage and the estimate context are not modelled.

## Findings

| source | as written | input that shows it | evidently intended | confidence | as-written member | corrected member |
|---|---|---|---|---|---|---|
| estimate-management-fe/src/pages/CreateEstimate.tsx:423-425 | With equal lengths, the search predicate compares `newEpics[index]` with itself. It is true at index 0, so the first epic is announced as updated whichever epic changed. | Old epics `[a, b]`, new epics `[a, b']`: the page announces "update a", and a peer applying it keeps `b`. | Announce the epic that differs from the old one at the same index; the comment says "find which one". In the page itself, the nested writers of the table change epic objects that the old list shares, so a same-index comparison would also see no change for nested edits; the corrected classification delivers edits only where, as in this model, the old list is not aliased. | High that edits of any epic after the first are misannounced; medium for the exact comparison intended. Not executed. | `LiveUpdate.AsWrittenMissesLaterEdit` (on `LiveUpdate.AnnouncementAsWritten`) | `LiveUpdate.UpdateReachesPeer` (on `LiveUpdate.Announcement`) |

/**
 * The fixed four-level estimate table
 * (estimate-management-fe/src/components/estimate/EstimateTable.tsx):
 * per-node totals, the leaf-only roll-up into a grand total, the row counts
 * the table lays out, and the add / update / delete operations of each level.
 *
 * The operations are specified by functions on the epic list; the class
 * `Table` holds the list the component edits and its methods carry out each
 * operation step by step and install the result, as `onUpdate(newEpics)` does.
 */
module EstimateTable {
  import opened EstimateTypes
  import opened Lists

  // ------------------------------------------------------------------ totals

  /** calculateTotal: `personnel.reduce((sum, p) => sum + p.value, 0)`. */
  function CalculateTotal(ps: seq<Personnel>): int
  {
    SumOf(ps, ValueOf)
  }

  function ValueOf(p: Personnel): int { p.value }

  /** With no negative entry the total bounds every entry, and an empty list totals 0. */
  lemma {:induction false} TotalBoundsEntries(ps: seq<Personnel>)
    requires forall i :: 0 <= i < |ps| ==> ps[i].value >= 0
    ensures CalculateTotal(ps) >= 0
    ensures forall i :: 0 <= i < |ps| ==> ps[i].value <= CalculateTotal(ps)
    ensures ps == [] ==> CalculateTotal(ps) == 0
  {
    if ps != [] {
      TotalBoundsEntries(ps[..|ps| - 1]);
    }
  }

  /** Replacing one entry changes the total by the difference of the two values. */
  lemma TotalAfterEntryChange(ps: seq<Personnel>, i: nat, p: Personnel)
    requires i < |ps|
    ensures CalculateTotal(ps[i := p]) == CalculateTotal(ps) - ps[i].value + p.value
  {
    SumOfUpdate(ps, i, p, ValueOf);
  }

  // --------------------------------------------------------------- personnel

  /** `personnelTypes.map((type) => ({ type, value: 0 }))` */
  const ZeroPersonnel: seq<Personnel> := [Personnel(DEV, 0), Personnel(BA, 0), Personnel(TESTER, 0)]

  /** A new node's personnel has one zero entry per role, in role order, and totals 0. */
  lemma ZeroPersonnelIsBlank()
    ensures OnePerRole(ZeroPersonnel)
    ensures forall i :: 0 <= i < |ZeroPersonnel| ==> ZeroPersonnel[i] == Personnel(PersonnelTypes[i], 0)
    ensures CalculateTotal(ZeroPersonnel) == 0
  {
    var z := ZeroPersonnel;
    assert z[..2][..1][..0] == [];
    assert SumOf(z[..2][..1], ValueOf) == 0;
    assert SumOf(z[..2], ValueOf) == 0;
  }

  /** `personnel.findIndex((p) => p.type === kind)`: the first matching index, or -1. */
  function FindKind(ps: seq<Personnel>, kind: PersonnelType): int
  {
    FindIndex(ps, (p: Personnel) => p.kind == kind)
  }

  /**
   * The write of `updatePersonnel`: the first entry of the role gets `value`;
   * with no entry of that role the list is left alone.
   */
  function PersonnelSet(ps: seq<Personnel>, kind: PersonnelType, value: int): (r: seq<Personnel>)
    ensures |r| == |ps| && forall i :: 0 <= i < |ps| ==> r[i].kind == ps[i].kind
    ensures FindKind(ps, kind) == -1 ==> r == ps
    ensures FindKind(ps, kind) >= 0 ==>
              r[FindKind(ps, kind)].value == value &&
              forall i :: 0 <= i < |ps| && i != FindKind(ps, kind) ==> r[i] == ps[i]
  {
    var i := FindKind(ps, kind);
    if i == -1 then ps else ps[i := ps[i].(value := value)]
  }

  /** The total moves by exactly the change made to the matched entry. */
  lemma TotalAfterPersonnelSet(ps: seq<Personnel>, kind: PersonnelType, value: int)
    ensures var i := FindKind(ps, kind);
            CalculateTotal(PersonnelSet(ps, kind, value)) ==
              if i == -1 then CalculateTotal(ps) else CalculateTotal(ps) - ps[i].value + value
  {
    var i := FindKind(ps, kind);
    if i != -1 {
      TotalAfterEntryChange(ps, i, ps[i].(value := value));
    }
  }

  // ------------------------------------------------------------------- nodes

  function NewEpic(id: string): Epic { Epic(id, "", [], ZeroPersonnel) }
  function NewStory(id: string): Story { Story(id, "", [], ZeroPersonnel) }
  function NewTask(id: string): Task { Task(id, "", [], ZeroPersonnel) }
  function NewSubTask(id: string): SubTask { SubTask(id, "", ZeroPersonnel) }

  /** Every node of the tree has one personnel entry per role, in role order. */
  ghost predicate TaskWellFormed(t: Task)
  {
    OnePerRole(t.personnel) && forall i :: 0 <= i < |t.subTasks| ==> OnePerRole(t.subTasks[i].personnel)
  }

  ghost predicate StoryWellFormed(s: Story)
  {
    OnePerRole(s.personnel) && forall i :: 0 <= i < |s.tasks| ==> TaskWellFormed(s.tasks[i])
  }

  ghost predicate EpicWellFormed(e: Epic)
  {
    OnePerRole(e.personnel) && forall i :: 0 <= i < |e.stories| ==> StoryWellFormed(e.stories[i])
  }

  ghost predicate WellFormed(epics: seq<Epic>)
  {
    forall i :: 0 <= i < |epics| ==> EpicWellFormed(epics[i])
  }

  // ----------------------------------------------------------------- roll-up

  /**
   * The roll-up rule of calculateGrandTotal: a node's own hours count only
   * while it has no child at the next level; otherwise its children's do.
   */
  function SubTaskRollUp(st: SubTask): int { CalculateTotal(st.personnel) }

  function TaskRollUp(t: Task): int
  {
    if |t.subTasks| == 0 then CalculateTotal(t.personnel) else SumOf(t.subTasks, SubTaskRollUp)
  }

  function StoryRollUp(s: Story): int
  {
    if |s.tasks| == 0 then CalculateTotal(s.personnel) else SumOf(s.tasks, TaskRollUp)
  }

  function EpicRollUp(e: Epic): int
  {
    if |e.stories| == 0 then CalculateTotal(e.personnel) else SumOf(e.stories, StoryRollUp)
  }

  function GrandTotal(epics: seq<Epic>): int
  {
    SumOf(epics, EpicRollUp)
  }

  /**
   * The personnel lists of the leaf rows, in table order: a node is a leaf
   * exactly when its list of next-level children is empty; sub-tasks always are.
   */
  function SubTaskLeaves(st: SubTask): seq<seq<Personnel>> { [st.personnel] }

  function TaskLeaves(t: Task): seq<seq<Personnel>>
  {
    if |t.subTasks| == 0 then [t.personnel] else FlatMap(t.subTasks, SubTaskLeaves)
  }

  function StoryLeaves(s: Story): seq<seq<Personnel>>
  {
    if |s.tasks| == 0 then [s.personnel] else FlatMap(s.tasks, TaskLeaves)
  }

  function EpicLeaves(e: Epic): seq<seq<Personnel>>
  {
    if |e.stories| == 0 then [e.personnel] else FlatMap(e.stories, StoryLeaves)
  }

  function Leaves(epics: seq<Epic>): seq<seq<Personnel>>
  {
    FlatMap(epics, EpicLeaves)
  }

  lemma TaskRollUpIsLeafSum(t: Task)
    ensures TaskRollUp(t) == SumOf(TaskLeaves(t), CalculateTotal)
  {
    if |t.subTasks| != 0 {
      SumOfFlatMap(t.subTasks, SubTaskLeaves, CalculateTotal, SubTaskRollUp);
    }
  }

  lemma StoryRollUpIsLeafSum(s: Story)
    ensures StoryRollUp(s) == SumOf(StoryLeaves(s), CalculateTotal)
  {
    if |s.tasks| != 0 {
      forall t ensures TaskRollUp(t) == SumOf(TaskLeaves(t), CalculateTotal) {
        TaskRollUpIsLeafSum(t);
      }
      SumOfFlatMap(s.tasks, TaskLeaves, CalculateTotal, TaskRollUp);
    }
  }

  lemma EpicRollUpIsLeafSum(e: Epic)
    ensures EpicRollUp(e) == SumOf(EpicLeaves(e), CalculateTotal)
  {
    if |e.stories| != 0 {
      forall s ensures StoryRollUp(s) == SumOf(StoryLeaves(s), CalculateTotal) {
        StoryRollUpIsLeafSum(s);
      }
      SumOfFlatMap(e.stories, StoryLeaves, CalculateTotal, StoryRollUp);
    }
  }

  /** The grand total is the sum of calculateTotal over exactly the leaf rows. */
  lemma GrandTotalIsLeafSum(epics: seq<Epic>)
    ensures GrandTotal(epics) == SumOf(Leaves(epics), CalculateTotal)
    ensures epics == [] ==> GrandTotal(epics) == 0
  {
    forall e ensures EpicRollUp(e) == SumOf(EpicLeaves(e), CalculateTotal) {
      EpicRollUpIsLeafSum(e);
    }
    SumOfFlatMap(epics, EpicLeaves, CalculateTotal, EpicRollUp);
  }

  /**
   * calculateGrandTotal: nested loops over the four levels adding into one
   * running total.
   */
  method CalculateGrandTotal(epics: seq<Epic>) returns (total: int)
    ensures total == GrandTotal(epics)
    ensures total == SumOf(Leaves(epics), CalculateTotal)
  {
    total := 0;
    for ei := 0 to |epics|
      invariant total == SumOf(epics[..ei], EpicRollUp)
    {
      var epic := epics[ei];
      ghost var beforeEpic := total;
      if |epic.stories| == 0 {
        total := total + CalculateTotal(epic.personnel);
      } else {
        for si := 0 to |epic.stories|
          invariant total == beforeEpic + SumOf(epic.stories[..si], StoryRollUp)
        {
          var story := epic.stories[si];
          ghost var beforeStory := total;
          if |story.tasks| == 0 {
            total := total + CalculateTotal(story.personnel);
          } else {
            for ti := 0 to |story.tasks|
              invariant total == beforeStory + SumOf(story.tasks[..ti], TaskRollUp)
            {
              var task := story.tasks[ti];
              ghost var beforeTask := total;
              if |task.subTasks| == 0 {
                total := total + CalculateTotal(task.personnel);
              } else {
                for sti := 0 to |task.subTasks|
                  invariant total == beforeTask + SumOf(task.subTasks[..sti], SubTaskRollUp)
                {
                  total := total + CalculateTotal(task.subTasks[sti].personnel);
                  SumOfPrefix(task.subTasks, sti, SubTaskRollUp);
                }
                assert task.subTasks[..|task.subTasks|] == task.subTasks;
              }
              SumOfPrefix(story.tasks, ti, TaskRollUp);
            }
            assert story.tasks[..|story.tasks|] == story.tasks;
          }
          SumOfPrefix(epic.stories, si, StoryRollUp);
        }
        assert epic.stories[..|epic.stories|] == epic.stories;
      }
      SumOfPrefix(epics, ei, EpicRollUp);
    }
    assert epics[..|epics|] == epics;
    GrandTotalIsLeafSum(epics);
  }

  // -------------------------------------------------------------- row counts

  /** taskRowCount: one row per sub-task, or one row for a task without any. */
  function TaskRowCount(t: Task): int
  {
    if |t.subTasks| == 0 then 1 else |t.subTasks|
  }

  /** storyRowCount: the sum over tasks of max(1, #sub-tasks), or 1 without tasks. */
  function StoryRowCount(s: Story): int
  {
    if |s.tasks| == 0 then 1 else SumOf(s.tasks, TaskRowCount)
  }

  /** epicRowCount: its inner `reduce` is storyRowCount written out again. */
  function EpicRowCount(e: Epic): int
  {
    if |e.stories| == 0 then 1 else SumOf(e.stories, StoryRowCount)
  }

  lemma TaskRowCountIsLeafCount(t: Task)
    ensures TaskRowCount(t) == |TaskLeaves(t)| >= 1
  {
    if |t.subTasks| != 0 {
      FlatMapLength(t.subTasks, SubTaskLeaves, One);
      SumOfAgree(t.subTasks, One, One);
      SumOfAtLeastLength(t.subTasks, One);
      OnesSumToLength(t.subTasks);
    }
  }

  function One(st: SubTask): int { 1 }

  lemma {:induction false} OnesSumToLength(sts: seq<SubTask>)
    ensures SumOf(sts, One) == |sts|
  {
    if sts != [] {
      OnesSumToLength(sts[..|sts| - 1]);
    }
  }

  lemma StoryRowCountIsLeafCount(s: Story)
    ensures StoryRowCount(s) == |StoryLeaves(s)| >= 1
  {
    if |s.tasks| != 0 {
      forall t ensures TaskRowCount(t) == |TaskLeaves(t)| {
        TaskRowCountIsLeafCount(t);
      }
      forall i | 0 <= i < |s.tasks| ensures TaskRowCount(s.tasks[i]) >= 1 {
        TaskRowCountIsLeafCount(s.tasks[i]);
      }
      FlatMapLength(s.tasks, TaskLeaves, TaskRowCount);
      SumOfAtLeastLength(s.tasks, TaskRowCount);
    }
  }

  /**
   * The rows an epic spans are its leaf rows, so the row span of its cell
   * is the number of rows the table emits for it, and never less than one.
   */
  lemma EpicRowCountIsLeafCount(e: Epic)
    ensures EpicRowCount(e) == |EpicLeaves(e)| >= 1
  {
    if |e.stories| != 0 {
      forall s ensures StoryRowCount(s) == |StoryLeaves(s)| {
        StoryRowCountIsLeafCount(s);
      }
      forall i | 0 <= i < |e.stories| ensures StoryRowCount(e.stories[i]) >= 1 {
        StoryRowCountIsLeafCount(e.stories[i]);
      }
      FlatMapLength(e.stories, StoryLeaves, StoryRowCount);
      SumOfAtLeastLength(e.stories, StoryRowCount);
    }
  }

  // -------------------------------------------------------------- addressing

  /** What `update*` writes under `[field]`: the id or the name (strings) or the personnel list. */
  datatype Field = IdField(id: string) | NameField(name: string) | PersonnelField(personnel: seq<Personnel>)

  /** The spread `{ ...node, [field]: value }` for each node kind. */
  function SetEpicField(e: Epic, f: Field): Epic
  {
    match f
    case IdField(id) => e.(id := id)
    case NameField(name) => e.(name := name)
    case PersonnelField(ps) => e.(personnel := ps)
  }

  function SetStoryField(s: Story, f: Field): Story
  {
    match f
    case IdField(id) => s.(id := id)
    case NameField(name) => s.(name := name)
    case PersonnelField(ps) => s.(personnel := ps)
  }

  function SetTaskField(t: Task, f: Field): Task
  {
    match f
    case IdField(id) => t.(id := id)
    case NameField(name) => t.(name := name)
    case PersonnelField(ps) => t.(personnel := ps)
  }

  function SetSubTaskField(st: SubTask, f: Field): SubTask
  {
    match f
    case IdField(id) => st.(id := id)
    case NameField(name) => st.(name := name)
    case PersonnelField(ps) => st.(personnel := ps)
  }

  predicate StoryExists(epics: seq<Epic>, ei: nat, si: nat)
  {
    ei < |epics| && si < |epics[ei].stories|
  }

  predicate TaskExists(epics: seq<Epic>, ei: nat, si: nat, ti: nat)
  {
    StoryExists(epics, ei, si) && ti < |epics[ei].stories[si].tasks|
  }

  predicate SubTaskExists(epics: seq<Epic>, ei: nat, si: nat, ti: nat, sti: nat)
  {
    TaskExists(epics, ei, si, ti) && sti < |epics[ei].stories[si].tasks[ti].subTasks|
  }

  /** Writing one story back into its epic, all other nodes left in place. */
  function WithStory(epics: seq<Epic>, ei: nat, si: nat, s: Story): seq<Epic>
    requires StoryExists(epics, ei, si)
  {
    epics[ei := epics[ei].(stories := epics[ei].stories[si := s])]
  }

  function WithTask(epics: seq<Epic>, ei: nat, si: nat, ti: nat, t: Task): seq<Epic>
    requires TaskExists(epics, ei, si, ti)
  {
    var s := epics[ei].stories[si];
    WithStory(epics, ei, si, s.(tasks := s.tasks[ti := t]))
  }

  function WithSubTask(epics: seq<Epic>, ei: nat, si: nat, ti: nat, sti: nat, st: SubTask): seq<Epic>
    requires SubTaskExists(epics, ei, si, ti, sti)
  {
    var t := epics[ei].stories[si].tasks[ti];
    WithTask(epics, ei, si, ti, t.(subTasks := t.subTasks[sti := st]))
  }

  /** Two epic lists that differ at most in the epic at `ei`. */
  ghost predicate SameExceptEpic(a: seq<Epic>, b: seq<Epic>, ei: nat)
  {
    |a| == |b| && forall k :: 0 <= k < |a| && k != ei ==> a[k] == b[k]
  }

  /** Two epics with the same fields that differ at most in the story at `si`. */
  ghost predicate SameExceptStory(a: Epic, b: Epic, si: nat)
  {
    a.id == b.id && a.name == b.name && a.personnel == b.personnel &&
    |a.stories| == |b.stories| && forall k :: 0 <= k < |a.stories| && k != si ==> a.stories[k] == b.stories[k]
  }

  ghost predicate SameExceptTask(a: Story, b: Story, ti: nat)
  {
    a.id == b.id && a.name == b.name && a.personnel == b.personnel &&
    |a.tasks| == |b.tasks| && forall k :: 0 <= k < |a.tasks| && k != ti ==> a.tasks[k] == b.tasks[k]
  }

  ghost predicate SameExceptSubTask(a: Task, b: Task, sti: nat)
  {
    a.id == b.id && a.name == b.name && a.personnel == b.personnel &&
    |a.subTasks| == |b.subTasks| && forall k :: 0 <= k < |a.subTasks| && k != sti ==> a.subTasks[k] == b.subTasks[k]
  }

  // -------------------------------------------------------------------- adds

  /** addEpic: `[...epics, newEpic]`. */
  function EpicAdded(epics: seq<Epic>, id: string): (r: seq<Epic>)
    ensures |r| == |epics| + 1 && r[..|epics|] == epics
    ensures r[|epics|] == NewEpic(id)
  {
    epics + [NewEpic(id)]
  }

  /** addStory: one blank story pushed onto the stories of epic `ei`, nothing else touched. */
  function StoryAdded(epics: seq<Epic>, ei: nat, id: string): (r: seq<Epic>)
    requires ei < |epics|
    ensures SameExceptEpic(epics, r, ei)
    ensures var (a, b) := (epics[ei], r[ei]);
            b.id == a.id && b.name == a.name && b.personnel == a.personnel &&
            |b.stories| == |a.stories| + 1 && b.stories[..|a.stories|] == a.stories &&
            b.stories[|a.stories|] == NewStory(id)
  {
    var e := epics[ei];
    epics[ei := e.(stories := e.stories + [NewStory(id)])]
  }

  /** addTask: one blank task pushed onto the addressed story's tasks. */
  function TaskAdded(epics: seq<Epic>, ei: nat, si: nat, id: string): (r: seq<Epic>)
    requires StoryExists(epics, ei, si)
    ensures SameExceptEpic(epics, r, ei) && SameExceptStory(epics[ei], r[ei], si)
    ensures var (a, b) := (epics[ei].stories[si], r[ei].stories[si]);
            b.id == a.id && b.name == a.name && b.personnel == a.personnel &&
            |b.tasks| == |a.tasks| + 1 && b.tasks[..|a.tasks|] == a.tasks &&
            b.tasks[|a.tasks|] == NewTask(id)
  {
    var s := epics[ei].stories[si];
    WithStory(epics, ei, si, s.(tasks := s.tasks + [NewTask(id)]))
  }

  /** addSubTask: one blank sub-task pushed onto the addressed task's sub-tasks. */
  function SubTaskAdded(epics: seq<Epic>, ei: nat, si: nat, ti: nat, id: string): (r: seq<Epic>)
    requires TaskExists(epics, ei, si, ti)
    ensures SameExceptEpic(epics, r, ei) && SameExceptStory(epics[ei], r[ei], si)
    ensures SameExceptTask(epics[ei].stories[si], r[ei].stories[si], ti)
    ensures var (a, b) := (epics[ei].stories[si].tasks[ti], r[ei].stories[si].tasks[ti]);
            b.id == a.id && b.name == a.name && b.personnel == a.personnel &&
            |b.subTasks| == |a.subTasks| + 1 && b.subTasks[..|a.subTasks|] == a.subTasks &&
            b.subTasks[|a.subTasks|] == NewSubTask(id)
  {
    var t := epics[ei].stories[si].tasks[ti];
    WithTask(epics, ei, si, ti, t.(subTasks := t.subTasks + [NewSubTask(id)]))
  }

  // ----------------------------------------------------------------- updates

  /** updateEpic: exactly one field of epic `ei` replaced. */
  function EpicUpdated(epics: seq<Epic>, ei: nat, f: Field): (r: seq<Epic>)
    requires ei < |epics|
    ensures SameExceptEpic(epics, r, ei) && r[ei].stories == epics[ei].stories
    ensures r[ei].id == (if f.IdField? then f.id else epics[ei].id)
    ensures r[ei].name == (if f.NameField? then f.name else epics[ei].name)
    ensures r[ei].personnel == (if f.PersonnelField? then f.personnel else epics[ei].personnel)
  {
    epics[ei := SetEpicField(epics[ei], f)]
  }

  /** updateStory: exactly one field of the addressed story replaced. */
  function StoryUpdated(epics: seq<Epic>, ei: nat, si: nat, f: Field): (r: seq<Epic>)
    requires StoryExists(epics, ei, si)
    ensures SameExceptEpic(epics, r, ei) && SameExceptStory(epics[ei], r[ei], si)
    ensures var (a, b) := (epics[ei].stories[si], r[ei].stories[si]);
            b.tasks == a.tasks &&
            b.id == (if f.IdField? then f.id else a.id) &&
            b.name == (if f.NameField? then f.name else a.name) &&
            b.personnel == (if f.PersonnelField? then f.personnel else a.personnel)
  {
    WithStory(epics, ei, si, SetStoryField(epics[ei].stories[si], f))
  }

  /** updateTask: exactly one field of the addressed task replaced. */
  function TaskUpdated(epics: seq<Epic>, ei: nat, si: nat, ti: nat, f: Field): (r: seq<Epic>)
    requires TaskExists(epics, ei, si, ti)
    ensures SameExceptEpic(epics, r, ei) && SameExceptStory(epics[ei], r[ei], si)
    ensures SameExceptTask(epics[ei].stories[si], r[ei].stories[si], ti)
    ensures var (a, b) := (epics[ei].stories[si].tasks[ti], r[ei].stories[si].tasks[ti]);
            b.subTasks == a.subTasks &&
            b.id == (if f.IdField? then f.id else a.id) &&
            b.name == (if f.NameField? then f.name else a.name) &&
            b.personnel == (if f.PersonnelField? then f.personnel else a.personnel)
  {
    WithTask(epics, ei, si, ti, SetTaskField(epics[ei].stories[si].tasks[ti], f))
  }

  /** updateSubTask: exactly one field of the addressed sub-task replaced. */
  function SubTaskUpdated(epics: seq<Epic>, ei: nat, si: nat, ti: nat, sti: nat, f: Field): (r: seq<Epic>)
    requires SubTaskExists(epics, ei, si, ti, sti)
    ensures SameExceptEpic(epics, r, ei) && SameExceptStory(epics[ei], r[ei], si)
    ensures SameExceptTask(epics[ei].stories[si], r[ei].stories[si], ti)
    ensures SameExceptSubTask(epics[ei].stories[si].tasks[ti], r[ei].stories[si].tasks[ti], sti)
    ensures var (a, b) := (epics[ei].stories[si].tasks[ti].subTasks[sti], r[ei].stories[si].tasks[ti].subTasks[sti]);
            b.id == (if f.IdField? then f.id else a.id) &&
            b.name == (if f.NameField? then f.name else a.name) &&
            b.personnel == (if f.PersonnelField? then f.personnel else a.personnel)
  {
    WithSubTask(epics, ei, si, ti, sti, SetSubTaskField(epics[ei].stories[si].tasks[ti].subTasks[sti], f))
  }

  // ------------------------------------------------------- personnel update

  /** The `type` argument of updatePersonnel: which level `indices` addresses. */
  datatype NodeLevel = EpicLevel | StoryLevel | TaskLevel | SubTaskLevel

  /** The leading indices of `indices` name an existing node of `level`; extra indices are ignored. */
  predicate Resolves(epics: seq<Epic>, level: NodeLevel, indices: seq<nat>)
  {
    match level
    case EpicLevel => |indices| >= 1 && indices[0] < |epics|
    case StoryLevel => |indices| >= 2 && StoryExists(epics, indices[0], indices[1])
    case TaskLevel => |indices| >= 3 && TaskExists(epics, indices[0], indices[1], indices[2])
    case SubTaskLevel => |indices| >= 4 && SubTaskExists(epics, indices[0], indices[1], indices[2], indices[3])
  }

  /** The `target` personnel list updatePersonnel locates. */
  function PersonnelAt(epics: seq<Epic>, level: NodeLevel, indices: seq<nat>): seq<Personnel>
    requires Resolves(epics, level, indices)
  {
    match level
    case EpicLevel => epics[indices[0]].personnel
    case StoryLevel => epics[indices[0]].stories[indices[1]].personnel
    case TaskLevel => epics[indices[0]].stories[indices[1]].tasks[indices[2]].personnel
    case SubTaskLevel => epics[indices[0]].stories[indices[1]].tasks[indices[2]].subTasks[indices[3]].personnel
  }

  /** Whether the addressed node is a leaf row, so that its own hours are rolled up. */
  predicate IsLeafAt(epics: seq<Epic>, level: NodeLevel, indices: seq<nat>)
    requires Resolves(epics, level, indices)
  {
    match level
    case EpicLevel => |epics[indices[0]].stories| == 0
    case StoryLevel => |epics[indices[0]].stories[indices[1]].tasks| == 0
    case TaskLevel => |epics[indices[0]].stories[indices[1]].tasks[indices[2]].subTasks| == 0
    case SubTaskLevel => true
  }

  /** Writing a personnel list back into the addressed node. */
  function WithPersonnelAt(epics: seq<Epic>, level: NodeLevel, indices: seq<nat>, ps: seq<Personnel>): seq<Epic>
    requires Resolves(epics, level, indices)
  {
    match level
    case EpicLevel => EpicUpdated(epics, indices[0], PersonnelField(ps))
    case StoryLevel => StoryUpdated(epics, indices[0], indices[1], PersonnelField(ps))
    case TaskLevel => TaskUpdated(epics, indices[0], indices[1], indices[2], PersonnelField(ps))
    case SubTaskLevel => SubTaskUpdated(epics, indices[0], indices[1], indices[2], indices[3], PersonnelField(ps))
  }

  /** updatePersonnel: the addressed node's first entry of the role gets `value`. */
  function PersonnelUpdated(epics: seq<Epic>, level: NodeLevel, indices: seq<nat>, kind: PersonnelType, value: int): (r: seq<Epic>)
    requires Resolves(epics, level, indices)
    ensures Resolves(r, level, indices)
    ensures PersonnelAt(r, level, indices) == PersonnelSet(PersonnelAt(epics, level, indices), kind, value)
    ensures IsLeafAt(r, level, indices) == IsLeafAt(epics, level, indices)
    ensures SameExceptEpic(epics, r, indices[0])
    ensures level != EpicLevel ==> SameExceptStory(epics[indices[0]], r[indices[0]], indices[1])
    ensures level == TaskLevel || level == SubTaskLevel ==>
              SameExceptTask(epics[indices[0]].stories[indices[1]], r[indices[0]].stories[indices[1]], indices[2])
    ensures level == SubTaskLevel ==>
              SameExceptSubTask(epics[indices[0]].stories[indices[1]].tasks[indices[2]],
                                r[indices[0]].stories[indices[1]].tasks[indices[2]], indices[3])
    ensures var ps := PersonnelSet(PersonnelAt(epics, level, indices), kind, value);
            match level
            case EpicLevel => r[indices[0]] == epics[indices[0]].(personnel := ps)
            case StoryLevel =>
              r[indices[0]].stories[indices[1]] == epics[indices[0]].stories[indices[1]].(personnel := ps)
            case TaskLevel =>
              r[indices[0]].stories[indices[1]].tasks[indices[2]] ==
              epics[indices[0]].stories[indices[1]].tasks[indices[2]].(personnel := ps)
            case SubTaskLevel =>
              r[indices[0]].stories[indices[1]].tasks[indices[2]].subTasks[indices[3]] ==
              epics[indices[0]].stories[indices[1]].tasks[indices[2]].subTasks[indices[3]].(personnel := ps)
  {
    WithPersonnelAt(epics, level, indices, PersonnelSet(PersonnelAt(epics, level, indices), kind, value))
  }

  // ----------------------------------------------------------------- deletes

  /** deleteEpic: `splice(ei, 1)` on the epic list. */
  function EpicDeleted(epics: seq<Epic>, ei: nat): seq<Epic>
  {
    Splice(epics, ei)
  }

  /** deleteStory: `splice(si, 1)` on the stories of epic `ei`. */
  function StoryDeleted(epics: seq<Epic>, ei: nat, si: nat): (r: seq<Epic>)
    requires ei < |epics|
    ensures SameExceptEpic(epics, r, ei)
    ensures var (a, b) := (epics[ei], r[ei]);
            b.id == a.id && b.name == a.name && b.personnel == a.personnel && b.stories == Splice(a.stories, si)
  {
    var e := epics[ei];
    epics[ei := e.(stories := Splice(e.stories, si))]
  }

  /** deleteTask: `splice(ti, 1)` on the addressed story's tasks. */
  function TaskDeleted(epics: seq<Epic>, ei: nat, si: nat, ti: nat): (r: seq<Epic>)
    requires StoryExists(epics, ei, si)
    ensures SameExceptEpic(epics, r, ei) && SameExceptStory(epics[ei], r[ei], si)
    ensures var (a, b) := (epics[ei].stories[si], r[ei].stories[si]);
            b.id == a.id && b.name == a.name && b.personnel == a.personnel && b.tasks == Splice(a.tasks, ti)
  {
    var s := epics[ei].stories[si];
    WithStory(epics, ei, si, s.(tasks := Splice(s.tasks, ti)))
  }

  /** deleteSubTask: `splice(sti, 1)` on the addressed task's sub-tasks. */
  function SubTaskDeleted(epics: seq<Epic>, ei: nat, si: nat, ti: nat, sti: nat): (r: seq<Epic>)
    requires TaskExists(epics, ei, si, ti)
    ensures SameExceptEpic(epics, r, ei) && SameExceptStory(epics[ei], r[ei], si)
    ensures SameExceptTask(epics[ei].stories[si], r[ei].stories[si], ti)
    ensures var (a, b) := (epics[ei].stories[si].tasks[ti], r[ei].stories[si].tasks[ti]);
            b.id == a.id && b.name == a.name && b.personnel == a.personnel && b.subTasks == Splice(a.subTasks, sti)
  {
    var t := epics[ei].stories[si].tasks[ti];
    WithTask(epics, ei, si, ti, t.(subTasks := Splice(t.subTasks, sti)))
  }

  // ------------------------------------------- what the operations do to totals

  lemma GrandTotalWithEpic(epics: seq<Epic>, ei: nat, e: Epic)
    requires ei < |epics|
    ensures GrandTotal(epics[ei := e]) == GrandTotal(epics) - EpicRollUp(epics[ei]) + EpicRollUp(e)
  {
    SumOfUpdate(epics, ei, e, EpicRollUp);
  }

  lemma GrandTotalWithStory(epics: seq<Epic>, ei: nat, si: nat, s: Story)
    requires StoryExists(epics, ei, si)
    ensures GrandTotal(WithStory(epics, ei, si, s)) ==
            GrandTotal(epics) - StoryRollUp(epics[ei].stories[si]) + StoryRollUp(s)
  {
    var e := epics[ei];
    SumOfUpdate(e.stories, si, s, StoryRollUp);
    GrandTotalWithEpic(epics, ei, e.(stories := e.stories[si := s]));
  }

  lemma GrandTotalWithTask(epics: seq<Epic>, ei: nat, si: nat, ti: nat, t: Task)
    requires TaskExists(epics, ei, si, ti)
    ensures GrandTotal(WithTask(epics, ei, si, ti, t)) ==
            GrandTotal(epics) - TaskRollUp(epics[ei].stories[si].tasks[ti]) + TaskRollUp(t)
  {
    var s := epics[ei].stories[si];
    SumOfUpdate(s.tasks, ti, t, TaskRollUp);
    GrandTotalWithStory(epics, ei, si, s.(tasks := s.tasks[ti := t]));
  }

  lemma GrandTotalWithSubTask(epics: seq<Epic>, ei: nat, si: nat, ti: nat, sti: nat, st: SubTask)
    requires SubTaskExists(epics, ei, si, ti, sti)
    ensures GrandTotal(WithSubTask(epics, ei, si, ti, sti, st)) ==
            GrandTotal(epics) - CalculateTotal(epics[ei].stories[si].tasks[ti].subTasks[sti].personnel) +
            CalculateTotal(st.personnel)
  {
    var t := epics[ei].stories[si].tasks[ti];
    SumOfUpdate(t.subTasks, sti, st, SubTaskRollUp);
    GrandTotalWithTask(epics, ei, si, ti, t.(subTasks := t.subTasks[sti := st]));
  }

  /** A new epic is a leaf with zero hours: the grand total does not move. */
  lemma EpicAddedRollUp(epics: seq<Epic>, id: string)
    ensures GrandTotal(EpicAdded(epics, id)) == GrandTotal(epics)
  {
    ZeroPersonnelIsBlank();
    SumOfAppend(epics, [NewEpic(id)], EpicRollUp);
  }

  /**
   * Adding a story to an epic that had none takes the epic's own hours out of
   * the grand total (the zero-hour story is the leaf now); otherwise nothing moves.
   */
  lemma StoryAddedRollUp(epics: seq<Epic>, ei: nat, id: string)
    requires ei < |epics|
    ensures GrandTotal(StoryAdded(epics, ei, id)) ==
            GrandTotal(epics) - (if |epics[ei].stories| == 0 then CalculateTotal(epics[ei].personnel) else 0)
  {
    ZeroPersonnelIsBlank();
    var e := epics[ei];
    SumOfAppend(e.stories, [NewStory(id)], StoryRollUp);
    GrandTotalWithEpic(epics, ei, e.(stories := e.stories + [NewStory(id)]));
  }

  lemma TaskAddedRollUp(epics: seq<Epic>, ei: nat, si: nat, id: string)
    requires StoryExists(epics, ei, si)
    ensures var s := epics[ei].stories[si];
            GrandTotal(TaskAdded(epics, ei, si, id)) ==
            GrandTotal(epics) - (if |s.tasks| == 0 then CalculateTotal(s.personnel) else 0)
  {
    ZeroPersonnelIsBlank();
    var s := epics[ei].stories[si];
    SumOfAppend(s.tasks, [NewTask(id)], TaskRollUp);
    GrandTotalWithStory(epics, ei, si, s.(tasks := s.tasks + [NewTask(id)]));
  }

  lemma SubTaskAddedRollUp(epics: seq<Epic>, ei: nat, si: nat, ti: nat, id: string)
    requires TaskExists(epics, ei, si, ti)
    ensures var t := epics[ei].stories[si].tasks[ti];
            GrandTotal(SubTaskAdded(epics, ei, si, ti, id)) ==
            GrandTotal(epics) - (if |t.subTasks| == 0 then CalculateTotal(t.personnel) else 0)
  {
    ZeroPersonnelIsBlank();
    var t := epics[ei].stories[si].tasks[ti];
    SumOfAppend(t.subTasks, [NewSubTask(id)], SubTaskRollUp);
    GrandTotalWithTask(epics, ei, si, ti, t.(subTasks := t.subTasks + [NewSubTask(id)]));
  }

  /** Deleting an epic takes exactly its roll-up out of the grand total. */
  lemma EpicDeletedRollUp(epics: seq<Epic>, ei: nat)
    ensures GrandTotal(EpicDeleted(epics, ei)) ==
            GrandTotal(epics) - (if ei < |epics| then EpicRollUp(epics[ei]) else 0)
  {
    if ei < |epics| {
      SumOfRemove(epics, ei, EpicRollUp);
    }
  }

  /**
   * Deleting a story takes its roll-up out; deleting an epic's last story
   * makes the epic a leaf again, so its own hours come back.
   */
  lemma StoryDeletedRollUp(epics: seq<Epic>, ei: nat, si: nat)
    requires StoryExists(epics, ei, si)
    ensures var e := epics[ei];
            GrandTotal(StoryDeleted(epics, ei, si)) ==
            GrandTotal(epics) - StoryRollUp(e.stories[si]) +
            (if |e.stories| == 1 then CalculateTotal(e.personnel) else 0)
  {
    var e := epics[ei];
    SumOfRemove(e.stories, si, StoryRollUp);
    if |e.stories| == 1 {
      assert e.stories == [e.stories[si]];
    }
    GrandTotalWithEpic(epics, ei, e.(stories := Splice(e.stories, si)));
  }

  lemma TaskDeletedRollUp(epics: seq<Epic>, ei: nat, si: nat, ti: nat)
    requires TaskExists(epics, ei, si, ti)
    ensures var s := epics[ei].stories[si];
            GrandTotal(TaskDeleted(epics, ei, si, ti)) ==
            GrandTotal(epics) - TaskRollUp(s.tasks[ti]) +
            (if |s.tasks| == 1 then CalculateTotal(s.personnel) else 0)
  {
    var s := epics[ei].stories[si];
    SumOfRemove(s.tasks, ti, TaskRollUp);
    if |s.tasks| == 1 {
      assert s.tasks == [s.tasks[ti]];
    }
    GrandTotalWithStory(epics, ei, si, s.(tasks := Splice(s.tasks, ti)));
  }

  lemma SubTaskDeletedRollUp(epics: seq<Epic>, ei: nat, si: nat, ti: nat, sti: nat)
    requires SubTaskExists(epics, ei, si, ti, sti)
    ensures var t := epics[ei].stories[si].tasks[ti];
            GrandTotal(SubTaskDeleted(epics, ei, si, ti, sti)) ==
            GrandTotal(epics) - CalculateTotal(t.subTasks[sti].personnel) +
            (if |t.subTasks| == 1 then CalculateTotal(t.personnel) else 0)
  {
    var t := epics[ei].stories[si].tasks[ti];
    SumOfRemove(t.subTasks, sti, SubTaskRollUp);
    if |t.subTasks| == 1 {
      assert t.subTasks == [t.subTasks[sti]];
    }
    GrandTotalWithTask(epics, ei, si, ti, t.(subTasks := Splice(t.subTasks, sti)));
  }

  /**
   * An hours edit moves the grand total by the change to the node's own total
   * when the node is a leaf row, and not at all when it has children.
   */
  lemma PersonnelUpdatedRollUp(epics: seq<Epic>, level: NodeLevel, indices: seq<nat>, kind: PersonnelType, value: int)
    requires Resolves(epics, level, indices)
    ensures var (before, after) := (PersonnelAt(epics, level, indices), PersonnelSet(PersonnelAt(epics, level, indices), kind, value));
            GrandTotal(PersonnelUpdated(epics, level, indices, kind, value)) ==
            GrandTotal(epics) +
            (if IsLeafAt(epics, level, indices) then CalculateTotal(after) - CalculateTotal(before) else 0)
  {
    var after := PersonnelSet(PersonnelAt(epics, level, indices), kind, value);
    match level
    case EpicLevel =>
      GrandTotalWithEpic(epics, indices[0], epics[indices[0]].(personnel := after));
    case StoryLevel =>
      GrandTotalWithStory(epics, indices[0], indices[1], epics[indices[0]].stories[indices[1]].(personnel := after));
    case TaskLevel =>
      var t := epics[indices[0]].stories[indices[1]].tasks[indices[2]];
      GrandTotalWithTask(epics, indices[0], indices[1], indices[2], t.(personnel := after));
    case SubTaskLevel =>
      var st := epics[indices[0]].stories[indices[1]].tasks[indices[2]].subTasks[indices[3]];
      GrandTotalWithSubTask(epics, indices[0], indices[1], indices[2], indices[3], st.(personnel := after));
  }

  /** Renaming (or re-identifying) a node never changes the grand total. */
  lemma RenameKeepsGrandTotal(epics: seq<Epic>, ei: nat, si: nat, ti: nat, sti: nat, f: Field)
    requires !f.PersonnelField?
    ensures ei < |epics| ==> GrandTotal(EpicUpdated(epics, ei, f)) == GrandTotal(epics)
    ensures StoryExists(epics, ei, si) ==> GrandTotal(StoryUpdated(epics, ei, si, f)) == GrandTotal(epics)
    ensures TaskExists(epics, ei, si, ti) ==> GrandTotal(TaskUpdated(epics, ei, si, ti, f)) == GrandTotal(epics)
    ensures SubTaskExists(epics, ei, si, ti, sti) ==>
              GrandTotal(SubTaskUpdated(epics, ei, si, ti, sti, f)) == GrandTotal(epics)
  {
    if ei < |epics| {
      GrandTotalWithEpic(epics, ei, SetEpicField(epics[ei], f));
    }
    if StoryExists(epics, ei, si) {
      GrandTotalWithStory(epics, ei, si, SetStoryField(epics[ei].stories[si], f));
    }
    if TaskExists(epics, ei, si, ti) {
      GrandTotalWithTask(epics, ei, si, ti, SetTaskField(epics[ei].stories[si].tasks[ti], f));
    }
    if SubTaskExists(epics, ei, si, ti, sti) {
      var st := epics[ei].stories[si].tasks[ti].subTasks[sti];
      GrandTotalWithSubTask(epics, ei, si, ti, sti, SetSubTaskField(st, f));
    }
  }

  // ------------------------------------------------- adds undone by deletes

  /** Deleting the node just added, at the index it was pushed to, restores the tree. */
  lemma EpicDeleteUndoesAdd(epics: seq<Epic>, id: string)
    ensures EpicDeleted(EpicAdded(epics, id), |epics|) == epics
  {
    assert Splice(epics + [NewEpic(id)], |epics|) == epics;
  }

  lemma StoryDeleteUndoesAdd(epics: seq<Epic>, ei: nat, id: string)
    requires ei < |epics|
    ensures StoryDeleted(StoryAdded(epics, ei, id), ei, |epics[ei].stories|) == epics
  {
    var e := epics[ei];
    assert Splice(e.stories + [NewStory(id)], |e.stories|) == e.stories;
    assert e.(stories := e.stories) == e;
    assert epics[ei := e] == epics;
  }

  lemma TaskDeleteUndoesAdd(epics: seq<Epic>, ei: nat, si: nat, id: string)
    requires StoryExists(epics, ei, si)
    ensures TaskDeleted(TaskAdded(epics, ei, si, id), ei, si, |epics[ei].stories[si].tasks|) == epics
  {
    var e := epics[ei];
    var s := e.stories[si];
    var added := TaskAdded(epics, ei, si, id);
    assert added[ei].stories[si] == s.(tasks := s.tasks + [NewTask(id)]);
    assert Splice(s.tasks + [NewTask(id)], |s.tasks|) == s.tasks;
    assert added[ei].stories[si := s] == e.stories;
    assert added[ei := e] == epics;
    assert e.stories[si := s] == e.stories;
    assert epics[ei := e] == epics;
  }

  lemma SubTaskDeleteUndoesAdd(epics: seq<Epic>, ei: nat, si: nat, ti: nat, id: string)
    requires TaskExists(epics, ei, si, ti)
    ensures SubTaskDeleted(SubTaskAdded(epics, ei, si, ti, id), ei, si, ti, |epics[ei].stories[si].tasks[ti].subTasks|) == epics
  {
    var e := epics[ei];
    var s := e.stories[si];
    var t := s.tasks[ti];
    var added := SubTaskAdded(epics, ei, si, ti, id);
    assert added[ei].stories[si].tasks[ti] == t.(subTasks := t.subTasks + [NewSubTask(id)]);
    assert Splice(t.subTasks + [NewSubTask(id)], |t.subTasks|) == t.subTasks;
    assert added[ei].stories[si].tasks[ti := t] == s.tasks;
    assert added[ei].stories[si := s] == e.stories;
    assert added[ei := e] == epics;
  }

  // ------------------------------------- one personnel entry per role, kept

  /** Every add creates its node with one zero entry per role, so the tree stays well formed. */
  lemma AddKeepsWellFormed(epics: seq<Epic>, ei: nat, si: nat, ti: nat, id: string)
    requires WellFormed(epics)
    ensures WellFormed(EpicAdded(epics, id))
    ensures ei < |epics| ==> WellFormed(StoryAdded(epics, ei, id))
    ensures StoryExists(epics, ei, si) ==> WellFormed(TaskAdded(epics, ei, si, id))
    ensures TaskExists(epics, ei, si, ti) ==> WellFormed(SubTaskAdded(epics, ei, si, ti, id))
  {
    ZeroPersonnelIsBlank();
    assert EpicWellFormed(NewEpic(id));
    if ei < |epics| {
      var e := epics[ei];
      assert EpicWellFormed(e.(stories := e.stories + [NewStory(id)]));
    }
    if StoryExists(epics, ei, si) {
      var e := epics[ei];
      var s := e.stories[si];
      var s' := s.(tasks := s.tasks + [NewTask(id)]);
      assert StoryWellFormed(s');
      assert EpicWellFormed(e.(stories := e.stories[si := s']));
    }
    if TaskExists(epics, ei, si, ti) {
      var e := epics[ei];
      var s := e.stories[si];
      var t := s.tasks[ti];
      var t' := t.(subTasks := t.subTasks + [NewSubTask(id)]);
      assert TaskWellFormed(t');
      var s' := s.(tasks := s.tasks[ti := t']);
      assert StoryWellFormed(s');
      assert EpicWellFormed(e.(stories := e.stories[si := s']));
    }
  }

  /** Deletes only remove nodes, so the tree stays well formed. */
  lemma DeleteKeepsWellFormed(epics: seq<Epic>, ei: nat, si: nat, ti: nat, sti: nat)
    requires WellFormed(epics)
    ensures WellFormed(EpicDeleted(epics, ei))
    ensures ei < |epics| ==> WellFormed(StoryDeleted(epics, ei, si))
    ensures StoryExists(epics, ei, si) ==> WellFormed(TaskDeleted(epics, ei, si, ti))
    ensures TaskExists(epics, ei, si, ti) ==> WellFormed(SubTaskDeleted(epics, ei, si, ti, sti))
  {
    if ei < |epics| {
      var e := epics[ei];
      var e' := e.(stories := Splice(e.stories, si));
      assert forall k :: 0 <= k < |e'.stories| ==> e'.stories[k] in e.stories;
      assert EpicWellFormed(e');
    }
    if StoryExists(epics, ei, si) {
      var e := epics[ei];
      var s := e.stories[si];
      var s' := s.(tasks := Splice(s.tasks, ti));
      assert forall k :: 0 <= k < |s'.tasks| ==> s'.tasks[k] in s.tasks;
      assert StoryWellFormed(s');
      assert EpicWellFormed(e.(stories := e.stories[si := s']));
    }
    if TaskExists(epics, ei, si, ti) {
      var e := epics[ei];
      var s := e.stories[si];
      var t := s.tasks[ti];
      var t' := t.(subTasks := Splice(t.subTasks, sti));
      assert forall k :: 0 <= k < |t'.subTasks| ==> t'.subTasks[k] in t.subTasks;
      assert TaskWellFormed(t');
      var s' := s.(tasks := s.tasks[ti := t']);
      assert StoryWellFormed(s');
      assert EpicWellFormed(e.(stories := e.stories[si := s']));
    }
  }

  /** An hours edit keeps every role in its place. */
  lemma PersonnelUpdateKeepsWellFormed(epics: seq<Epic>, level: NodeLevel, indices: seq<nat>, kind: PersonnelType, value: int)
    requires WellFormed(epics) && Resolves(epics, level, indices)
    ensures WellFormed(PersonnelUpdated(epics, level, indices, kind, value))
  {
    var after := PersonnelSet(PersonnelAt(epics, level, indices), kind, value);
    assert OnePerRole(after);
    var e := epics[indices[0]];
    match level
    case EpicLevel =>
      assert EpicWellFormed(e.(personnel := after));
    case StoryLevel =>
      var s := e.stories[indices[1]];
      var s' := s.(personnel := after);
      assert StoryWellFormed(s');
      assert EpicWellFormed(e.(stories := e.stories[indices[1] := s']));
    case TaskLevel =>
      var s := e.stories[indices[1]];
      var t := s.tasks[indices[2]];
      var t' := t.(personnel := after);
      assert TaskWellFormed(t');
      var s' := s.(tasks := s.tasks[indices[2] := t']);
      assert StoryWellFormed(s');
      assert EpicWellFormed(e.(stories := e.stories[indices[1] := s']));
    case SubTaskLevel =>
      var s := e.stories[indices[1]];
      var t := s.tasks[indices[2]];
      var st := t.subTasks[indices[3]];
      var t' := t.(subTasks := t.subTasks[indices[3] := st.(personnel := after)]);
      assert TaskWellFormed(t');
      var s' := s.(tasks := s.tasks[indices[2] := t']);
      assert StoryWellFormed(s');
      assert EpicWellFormed(e.(stories := e.stories[indices[1] := s']));
  }

  // ------------------------------------------------------------ the table

  /**
   * The epic list the table edits. Each method takes the list, reaches the
   * addressed node level by level, makes the one change (push, splice or
   * field write) and installs the new list, as `onUpdate(newEpics)` does.
   */
  class Table {
    var epics: seq<Epic>

    constructor (epics: seq<Epic>)
      ensures this.epics == epics
    {
      this.epics := epics;
    }

    method AddEpic(id: string)
      modifies this
      ensures epics == EpicAdded(old(epics), id)
    {
      var newEpics := epics + [NewEpic(id)];
      epics := newEpics;
    }

    method AddStory(epicIndex: nat, id: string)
      requires epicIndex < |epics|
      modifies this
      ensures epics == StoryAdded(old(epics), epicIndex, id)
    {
      var newEpics := epics;
      var epic := newEpics[epicIndex];
      epic := epic.(stories := epic.stories + [NewStory(id)]);
      newEpics := newEpics[epicIndex := epic];
      epics := newEpics;
    }

    method AddTask(epicIndex: nat, storyIndex: nat, id: string)
      requires StoryExists(epics, epicIndex, storyIndex)
      modifies this
      ensures epics == TaskAdded(old(epics), epicIndex, storyIndex, id)
    {
      var newEpics := epics;
      var epic := newEpics[epicIndex];
      var story := epic.stories[storyIndex];
      story := story.(tasks := story.tasks + [NewTask(id)]);
      epic := epic.(stories := epic.stories[storyIndex := story]);
      newEpics := newEpics[epicIndex := epic];
      epics := newEpics;
    }

    /** A task whose sub-task list is missing gets an empty one first; here both are the empty list. */
    method AddSubTask(epicIndex: nat, storyIndex: nat, taskIndex: nat, id: string)
      requires TaskExists(epics, epicIndex, storyIndex, taskIndex)
      modifies this
      ensures epics == SubTaskAdded(old(epics), epicIndex, storyIndex, taskIndex, id)
    {
      var newEpics := epics;
      var epic := newEpics[epicIndex];
      var story := epic.stories[storyIndex];
      var task := story.tasks[taskIndex];
      task := task.(subTasks := task.subTasks + [NewSubTask(id)]);
      story := story.(tasks := story.tasks[taskIndex := task]);
      epic := epic.(stories := epic.stories[storyIndex := story]);
      newEpics := newEpics[epicIndex := epic];
      epics := newEpics;
    }

    method UpdateEpic(epicIndex: nat, f: Field)
      requires epicIndex < |epics|
      modifies this
      ensures epics == EpicUpdated(old(epics), epicIndex, f)
    {
      var newEpics := epics;
      newEpics := newEpics[epicIndex := SetEpicField(newEpics[epicIndex], f)];
      epics := newEpics;
    }

    method UpdateStory(epicIndex: nat, storyIndex: nat, f: Field)
      requires StoryExists(epics, epicIndex, storyIndex)
      modifies this
      ensures epics == StoryUpdated(old(epics), epicIndex, storyIndex, f)
    {
      var newEpics := epics;
      var epic := newEpics[epicIndex];
      epic := epic.(stories := epic.stories[storyIndex := SetStoryField(epic.stories[storyIndex], f)]);
      newEpics := newEpics[epicIndex := epic];
      epics := newEpics;
    }

    method UpdateTask(epicIndex: nat, storyIndex: nat, taskIndex: nat, f: Field)
      requires TaskExists(epics, epicIndex, storyIndex, taskIndex)
      modifies this
      ensures epics == TaskUpdated(old(epics), epicIndex, storyIndex, taskIndex, f)
    {
      var newEpics := epics;
      var epic := newEpics[epicIndex];
      var story := epic.stories[storyIndex];
      story := story.(tasks := story.tasks[taskIndex := SetTaskField(story.tasks[taskIndex], f)]);
      epic := epic.(stories := epic.stories[storyIndex := story]);
      newEpics := newEpics[epicIndex := epic];
      epics := newEpics;
    }

    method UpdateSubTask(epicIndex: nat, storyIndex: nat, taskIndex: nat, subTaskIndex: nat, f: Field)
      requires SubTaskExists(epics, epicIndex, storyIndex, taskIndex, subTaskIndex)
      modifies this
      ensures epics == SubTaskUpdated(old(epics), epicIndex, storyIndex, taskIndex, subTaskIndex, f)
    {
      var newEpics := epics;
      var epic := newEpics[epicIndex];
      var story := epic.stories[storyIndex];
      var task := story.tasks[taskIndex];
      task := task.(subTasks := task.subTasks[subTaskIndex := SetSubTaskField(task.subTasks[subTaskIndex], f)]);
      story := story.(tasks := story.tasks[taskIndex := task]);
      epic := epic.(stories := epic.stories[storyIndex := story]);
      newEpics := newEpics[epicIndex := epic];
      epics := newEpics;
    }

    method UpdatePersonnel(level: NodeLevel, indices: seq<nat>, kind: PersonnelType, value: int)
      requires Resolves(epics, level, indices)
      modifies this
      ensures epics == PersonnelUpdated(old(epics), level, indices, kind, value)
    {
      var newEpics := epics;
      var target := PersonnelAt(newEpics, level, indices);
      var personnelIndex := FindKind(target, kind);
      if personnelIndex != -1 {
        target := target[personnelIndex := target[personnelIndex].(value := value)];
      }
      newEpics := WithPersonnelAt(newEpics, level, indices, target);
      epics := newEpics;
    }

    method DeleteEpic(epicIndex: nat)
      modifies this
      ensures epics == EpicDeleted(old(epics), epicIndex)
    {
      var newEpics := epics;
      newEpics := Splice(newEpics, epicIndex);
      epics := newEpics;
    }

    method DeleteStory(epicIndex: nat, storyIndex: nat)
      requires epicIndex < |epics|
      modifies this
      ensures epics == StoryDeleted(old(epics), epicIndex, storyIndex)
    {
      var newEpics := epics;
      var epic := newEpics[epicIndex];
      epic := epic.(stories := Splice(epic.stories, storyIndex));
      newEpics := newEpics[epicIndex := epic];
      epics := newEpics;
    }

    method DeleteTask(epicIndex: nat, storyIndex: nat, taskIndex: nat)
      requires StoryExists(epics, epicIndex, storyIndex)
      modifies this
      ensures epics == TaskDeleted(old(epics), epicIndex, storyIndex, taskIndex)
    {
      var newEpics := epics;
      var epic := newEpics[epicIndex];
      var story := epic.stories[storyIndex];
      story := story.(tasks := Splice(story.tasks, taskIndex));
      epic := epic.(stories := epic.stories[storyIndex := story]);
      newEpics := newEpics[epicIndex := epic];
      epics := newEpics;
    }

    method DeleteSubTask(epicIndex: nat, storyIndex: nat, taskIndex: nat, subTaskIndex: nat)
      requires TaskExists(epics, epicIndex, storyIndex, taskIndex)
      modifies this
      ensures epics == SubTaskDeleted(old(epics), epicIndex, storyIndex, taskIndex, subTaskIndex)
    {
      var newEpics := epics;
      var epic := newEpics[epicIndex];
      var story := epic.stories[storyIndex];
      var task := story.tasks[taskIndex];
      task := task.(subTasks := Splice(task.subTasks, subTaskIndex));
      story := story.(tasks := story.tasks[taskIndex := task]);
      epic := epic.(stories := epic.stories[storyIndex := story]);
      newEpics := newEpics[epicIndex := epic];
      epics := newEpics;
    }
  }
}

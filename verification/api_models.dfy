/**
 * The back end's estimate record, reduced to what it computes
 * (estimate-api/models.py): the list of clients editing an estimate, kept
 * without duplicates, and the routing of a personnel row to the one foreign
 * key its entity type names.
 *
 * The editor list is stored as JSON text in the source; here it is the list
 * itself, so each `json.loads` / `json.dumps` pair is the identity.
 */
module ApiModels {
  import opened Wrappers

  /** `id or str(uuid.uuid4())`: a given, non-empty id is kept; otherwise the generated one is used. */
  function IdOr(id: Option<string>, generated: string): (r: string)
    ensures id.Some? && id.value != "" ==> r == id.value
    ensures id == None || id == Some("") ==> r == generated
  {
    if id.Some? && id.value != "" then id.value else generated
  }

  // ---------------------------------------------------------- editor lists

  predicate NoDuplicates(xs: seq<string>)
  {
    forall i, j :: 0 <= i < j < |xs| ==> xs[i] != xs[j]
  }

  /** The position of the first `c`, or -1. */
  function IndexOf(xs: seq<string>, c: string): (r: int)
    ensures -1 <= r < |xs|
    ensures r == -1 <==> c !in xs
    ensures r >= 0 ==> xs[r] == c && c !in xs[..r]
  {
    if xs == [] then -1
    else if xs[0] == c then 0
    else
      var r := IndexOf(xs[1..], c);
      assert r >= 0 ==> xs[..r + 1] == [xs[0]] + xs[1..][..r];
      if r == -1 then -1 else r + 1
  }

  /** `editors.append(c)` guarded by `c not in editors`. */
  function EditorAdded(editors: seq<string>, c: string): (r: seq<string>)
    ensures c in r
    ensures c !in editors ==> r == editors + [c]
    ensures c in editors ==> r == editors
  {
    if c in editors then editors else editors + [c]
  }

  /** Python's `list.remove(c)`: drops the first occurrence of `c`, if any. */
  function RemoveFirst(editors: seq<string>, c: string): (r: seq<string>)
    ensures c !in editors ==> r == editors
    ensures c in editors ==>
              var i := IndexOf(editors, c);
              r == editors[..i] + editors[i + 1..] && |r| == |editors| - 1
    ensures multiset(r) == multiset(editors) - multiset{c}
  {
    var i := IndexOf(editors, c);
    if i == -1 then editors
    else
      assert editors == editors[..i] + [c] + editors[i + 1..];
      editors[..i] + editors[i + 1..]
  }

  /** The editors other than `c`, in their order. */
  function Others(editors: seq<string>, c: string): seq<string>
  {
    if editors == [] then []
    else (if editors[0] == c then [] else [editors[0]]) + Others(editors[1..], c)
  }

  lemma {:induction false} AddKeepsNoDuplicates(editors: seq<string>, c: string)
    requires NoDuplicates(editors)
    ensures NoDuplicates(EditorAdded(editors, c))
  {
    if c !in editors {
      var r := editors + [c];
      forall i, j | 0 <= i < j < |r|
        ensures r[i] != r[j]
      {
        if j == |editors| {
          assert r[i] == editors[i];
        }
      }
    }
  }

  /** On a list without duplicates, removing a client removes every trace of it. */
  lemma {:induction false} RemoveKeepsNoDuplicates(editors: seq<string>, c: string)
    requires NoDuplicates(editors)
    ensures NoDuplicates(RemoveFirst(editors, c))
    ensures c !in RemoveFirst(editors, c)
  {
    if c in editors {
      var i := IndexOf(editors, c);
      var r := RemoveFirst(editors, c);
      assert r == editors[..i] + editors[i + 1..];
      forall k | 0 <= k < |r|
        ensures r[k] == editors[if k < i then k else k + 1]
      {
      }
      forall k | 0 <= k < |r|
        ensures r[k] != c
      {
        assert editors[i] == c;
      }
    }
  }

  /** Adding an absent client and then removing it gives back the list it started from. */
  lemma RemoveUndoesAdd(editors: seq<string>, c: string)
    requires c !in editors
    ensures RemoveFirst(EditorAdded(editors, c), c) == editors
  {
    var r := editors + [c];
    assert IndexOf(r, c) == |editors| by {
      assert r[|editors|] == c;
      assert r[..|editors|] == editors;
    }
    assert r[..|editors|] == editors;
  }

  lemma {:induction false} OthersAppend(a: seq<string>, b: seq<string>, c: string)
    ensures Others(a + b, c) == Others(a, c) + Others(b, c)
  {
    if a == [] {
      assert a + b == b;
    } else {
      assert (a + b)[0] == a[0];
      assert (a + b)[1..] == a[1..] + b;
      OthersAppend(a[1..], b, c);
    }
  }

  /** Adding or removing one client leaves the other editors, and their order, as they were. */
  lemma OthersUntouched(editors: seq<string>, c: string)
    ensures Others(EditorAdded(editors, c), c) == Others(editors, c)
    ensures Others(RemoveFirst(editors, c), c) == Others(editors, c)
  {
    OthersAppend(editors, [c], c);
    assert Others([c], c) == [];
    if c in editors {
      var i := IndexOf(editors, c);
      assert editors == editors[..i] + [c] + editors[i + 1..];
      OthersAppend(editors[..i] + [c], editors[i + 1..], c);
      OthersAppend(editors[..i], [c], c);
      OthersAppend(editors[..i], editors[i + 1..], c);
    }
  }

  /** The estimate row, with the fields its constructor and editor methods touch. */
  class Estimate {
    var id: string
    var projectName: string
    var startDate: string
    var isDraft: bool
    var activeEditors: seq<string>

    /** A new estimate starts with no active editors; `generatedId` stands for the fresh uuid. */
    constructor (projectName: string, startDate: string, isDraft: bool, id: Option<string>, generatedId: string)
      ensures this.id == IdOr(id, generatedId)
      ensures this.projectName == projectName && this.startDate == startDate && this.isDraft == isDraft
      ensures activeEditors == []
    {
      this.id := IdOr(id, generatedId);
      this.projectName := projectName;
      this.startDate := startDate;
      this.isDraft := isDraft;
      activeEditors := [];
    }

    /** Records a joining client; true exactly when it was not yet listed. */
    method AddActiveEditor(clientId: string) returns (changed: bool)
      modifies this
      ensures changed <==> clientId !in old(activeEditors)
      ensures activeEditors == EditorAdded(old(activeEditors), clientId)
      ensures id == old(id) && projectName == old(projectName) && startDate == old(startDate) && isDraft == old(isDraft)
    {
      var editors := activeEditors;
      if clientId !in editors {
        editors := editors + [clientId];
        activeEditors := editors;
        return true;
      }
      return false;
    }

    /** Forgets a leaving client; true exactly when it was listed. */
    method RemoveActiveEditor(clientId: string) returns (changed: bool)
      modifies this
      ensures changed <==> clientId in old(activeEditors)
      ensures activeEditors == RemoveFirst(old(activeEditors), clientId)
      ensures id == old(id) && projectName == old(projectName) && startDate == old(startDate) && isDraft == old(isDraft)
    {
      var editors := activeEditors;
      if clientId in editors {
        editors := RemoveFirst(editors, clientId);
        activeEditors := editors;
        return true;
      }
      return false;
    }

    method GetActiveEditors() returns (editors: seq<string>)
      ensures editors == activeEditors
    {
      editors := activeEditors;
    }
  }

  // ------------------------------------------------------ personnel routing

  /** The four nullable foreign-key columns of a personnel row. */
  datatype ForeignKeys = ForeignKeys(epicId: Option<string>, storyId: Option<string>,
                                     taskId: Option<string>, subtaskId: Option<string>)

  function KeysSet(k: ForeignKeys): nat
  {
    (if k.epicId.Some? then 1 else 0) + (if k.storyId.Some? then 1 else 0) +
    (if k.taskId.Some? then 1 else 0) + (if k.subtaskId.Some? then 1 else 0)
  }

  /**
   * The keys `Personnel.__init__` sets: the one column `entityType` names
   * holds `entityId`; any other entity type sets none.
   */
  function RouteForeignKey(entityType: string, entityId: string): (r: ForeignKeys)
    ensures r.epicId.Some? <==> entityType == "epic"
    ensures r.storyId.Some? <==> entityType == "story"
    ensures r.taskId.Some? <==> entityType == "task"
    ensures r.subtaskId.Some? <==> entityType == "subtask"
    ensures KeysSet(r) == if entityType in ["epic", "story", "task", "subtask"] then 1 else 0
    ensures r.epicId.Some? ==> r.epicId.value == entityId
    ensures r.storyId.Some? ==> r.storyId.value == entityId
    ensures r.taskId.Some? ==> r.taskId.value == entityId
    ensures r.subtaskId.Some? ==> r.subtaskId.value == entityId
  {
    var none := ForeignKeys(None, None, None, None);
    if entityType == "epic" then none.(epicId := Some(entityId))
    else if entityType == "story" then none.(storyId := Some(entityId))
    else if entityType == "task" then none.(taskId := Some(entityId))
    else if entityType == "subtask" then none.(subtaskId := Some(entityId))
    else none
  }

  /** A personnel row; `kind` is the role column the source calls `type`. */
  class Personnel {
    var id: string
    var kind: string
    var value: int
    var entityType: string
    var entityId: string
    var epicId: Option<string>
    var storyId: Option<string>
    var taskId: Option<string>
    var subtaskId: Option<string>

    constructor (kind: string, entityType: string, entityId: string, value: int, id: Option<string>, generatedId: string)
      ensures this.id == IdOr(id, generatedId)
      ensures this.kind == kind && this.value == value && this.entityType == entityType && this.entityId == entityId
      ensures ForeignKeys(epicId, storyId, taskId, subtaskId) == RouteForeignKey(entityType, entityId)
    {
      this.id := IdOr(id, generatedId);
      this.kind := kind;
      this.value := value;
      this.entityType := entityType;
      this.entityId := entityId;
      epicId := None;
      storyId := None;
      taskId := None;
      subtaskId := None;
      if entityType == "epic" {
        epicId := Some(entityId);
      } else if entityType == "story" {
        storyId := Some(entityId);
      } else if entityType == "task" {
        taskId := Some(entityId);
      } else if entityType == "subtask" {
        subtaskId := Some(entityId);
      }
    }
  }
}

/**
 * The collaborative-editing logic of the estimate page
 * (estimate-management-fe/src/pages/CreateEstimate.tsx): how a message
 * relayed from another client is merged into the page's state, and how a
 * local change of the epic list is announced to the other clients.
 *
 * React's setters only install a new value, so both are functions from the
 * page state (and the message or the new list) to the new page state.
 */
module LiveUpdate {
  import opened EstimateTypes
  import opened Wrappers
  import opened Lists

  /** The banner shown when another editor loads a draft. */
  datatype Notification = Notification(show: bool, draftId: string, editorId: string)

  const NoNotification: Notification := Notification(false, "", "")

  /** The parts of the page state the messages touch. */
  datatype EditorState = EditorState(projectName: string, startDate: string, epics: seq<Epic>, notification: Notification)

  /**
   * The `data` of a message, in the three shapes the senders use: a whole
   * epic (epic add and update), `{ id }` (epic delete, draft load) and
   * `{ value }` (project name, start date).
   */
  datatype Payload = EpicData(epic: Epic) | IdData(id: string) | ValueData(value: string)

  /** A relayed message: what the sender emitted plus the sender's client id. */
  datatype Message = Message(kind: string, action: string, data: Payload, clientId: string)

  /** What a client emits; the relay adds the client id. */
  datatype Outgoing = Outgoing(kind: string, action: string, data: Payload)

  function Relayed(o: Outgoing, clientId: string): Message
  {
    Message(o.kind, o.action, o.data, clientId)
  }

  /** `data.data.id`, which a `{ value }` payload does not have. */
  function PayloadId(p: Payload): (r: Option<string>)
    ensures p.EpicData? ==> r == Some(p.epic.id)
    ensures p.IdData? ==> r == Some(p.id)
    ensures p.ValueData? ==> r == None
  {
    match p
    case EpicData(e) => Some(e.id)
    case IdData(id) => Some(id)
    case ValueData(_) => None
  }

  // ------------------------------------------------------------ epics by id

  predicate HasId(epics: seq<Epic>, id: string)
  {
    exists j :: 0 <= j < |epics| && epics[j].id == id
  }

  predicate UniqueIds(epics: seq<Epic>)
  {
    forall i, j :: 0 <= i < j < |epics| ==> epics[i].id != epics[j].id
  }

  /** `epics.map((epic) => (epic.id === e.id ? e : epic))` */
  function ReplaceById(epics: seq<Epic>, e: Epic): (r: seq<Epic>)
    ensures |r| == |epics|
    ensures forall i :: 0 <= i < |epics| ==> r[i] == if epics[i].id == e.id then e else epics[i]
  {
    if epics == [] then []
    else ReplaceById(epics[..|epics| - 1], e) + [if epics[|epics| - 1].id == e.id then e else epics[|epics| - 1]]
  }

  /** `epics.filter((epic) => epic.id !== id)` */
  function RemoveById(epics: seq<Epic>, id: string): (r: seq<Epic>)
    ensures |r| <= |epics|
    ensures forall i :: 0 <= i < |r| ==> r[i].id != id
  {
    if epics == [] then []
    else RemoveById(epics[..|epics| - 1], id) + (if epics[|epics| - 1].id == id then [] else [epics[|epics| - 1]])
  }

  /** An id no epic has filters nothing out. */
  lemma {:induction false} RemoveByIdAbsent(epics: seq<Epic>, id: string)
    requires !HasId(epics, id)
    ensures RemoveById(epics, id) == epics
  {
    if epics != [] {
      var init := epics[..|epics| - 1];
      assert !HasId(init, id) by {
        forall j | 0 <= j < |init|
          ensures init[j].id != id
        {
          assert init[j] == epics[j];
        }
      }
      RemoveByIdAbsent(init, id);
      assert epics == init + [epics[|epics| - 1]];
    }
  }

  lemma {:induction false} RemoveByIdAppend(a: seq<Epic>, b: seq<Epic>, id: string)
    ensures RemoveById(a + b, id) == RemoveById(a, id) + RemoveById(b, id)
  {
    if b == [] {
      assert a + b == a;
    } else {
      assert (a + b)[..|a + b| - 1] == a + b[..|b| - 1];
      RemoveByIdAppend(a, b[..|b| - 1], id);
    }
  }

  /** With unique ids, no epic before or after position `k` shares its id. */
  lemma OnlyOneWithId(epics: seq<Epic>, k: nat)
    requires UniqueIds(epics) && k < |epics|
    ensures !HasId(epics[..k], epics[k].id) && !HasId(epics[k + 1..], epics[k].id)
  {
    var before, after := epics[..k], epics[k + 1..];
    forall j | 0 <= j < |before|
      ensures before[j].id != epics[k].id
    {
      assert before[j] == epics[j];
    }
    forall j | 0 <= j < |after|
      ensures after[j].id != epics[k].id
    {
      assert after[j] == epics[k + 1 + j];
    }
  }

  /** Filtering out an id that occurs once takes out just that epic. */
  lemma RemoveByIdSingle(before: seq<Epic>, x: Epic, after: seq<Epic>)
    requires !HasId(before, x.id) && !HasId(after, x.id)
    ensures RemoveById(before + [x] + after, x.id) == before + after
  {
    RemoveByIdAbsent(before, x.id);
    RemoveByIdAbsent(after, x.id);
    assert RemoveById([x], x.id) == [] by {
      assert [x][..0] == [];
    }
    RemoveByIdAppend(before, [x], x.id);
    RemoveByIdAppend(before + [x], after, x.id);
  }

  /** With unique ids, the receiver's filter removes just the one epic: the sender's splice. */
  lemma RemoveByIdUnique(epics: seq<Epic>, k: nat)
    requires UniqueIds(epics) && k < |epics|
    ensures RemoveById(epics, epics[k].id) == Splice(epics, k)
  {
    OnlyOneWithId(epics, k);
    assert epics == epics[..k] + [epics[k]] + epics[k + 1..];
    RemoveByIdSingle(epics[..k], epics[k], epics[k + 1..]);
  }

  /** With unique ids, the receiver's map replaces just the epic with that id. */
  lemma ReplaceByIdUnique(epics: seq<Epic>, k: nat, e: Epic)
    requires UniqueIds(epics) && k < |epics| && e.id == epics[k].id
    ensures ReplaceById(epics, e) == epics[k := e]
  {
  }

  // ------------------------------------------------------- incoming messages

  /**
   * handleIncomingUpdate. Epic messages add, replace by id or remove by id;
   * "project_name" and "start_date" set that field; an "estimate"
   * "load_draft" message raises the notification. Anything else, and any
   * payload of another shape than the senders use, changes nothing.
   */
  function HandleIncomingUpdate(s: EditorState, m: Message): (r: EditorState)
    ensures m.kind == "epic" && m.action == "add" && m.data.EpicData? ==>
              r == s.(epics := s.epics + [m.data.epic])
    ensures m.kind == "epic" && m.action == "update" && m.data.EpicData? ==>
              r == s.(epics := ReplaceById(s.epics, m.data.epic))
    ensures m.kind == "epic" && m.action == "delete" && !m.data.ValueData? ==>
              r == s.(epics := RemoveById(s.epics, PayloadId(m.data).value))
    ensures m.kind == "project_name" && m.data.ValueData? ==> r == s.(projectName := m.data.value)
    ensures m.kind == "start_date" && m.data.ValueData? ==> r == s.(startDate := m.data.value)
    ensures m.kind == "estimate" && m.action == "load_draft" && !m.data.ValueData? ==>
              r == s.(notification := Notification(true, PayloadId(m.data).value, m.clientId))
    ensures m.kind !in ["epic", "project_name", "start_date", "estimate"] ==> r == s
    ensures m.kind == "epic" && m.action !in ["add", "update", "delete"] ==> r == s
    ensures m.kind == "estimate" && m.action != "load_draft" ==> r == s
  {
    if m.kind == "epic" then
      if m.action == "add" then
        if m.data.EpicData? then s.(epics := s.epics + [m.data.epic]) else s
      else if m.action == "update" then
        if m.data.EpicData? then s.(epics := ReplaceById(s.epics, m.data.epic)) else s
      else if m.action == "delete" then
        match PayloadId(m.data)
        case Some(id) => s.(epics := RemoveById(s.epics, id))
        case None => s
      else s
    else if m.kind == "project_name" then
      if m.data.ValueData? then s.(projectName := m.data.value) else s
    else if m.kind == "start_date" then
      if m.data.ValueData? then s.(startDate := m.data.value) else s
    else if m.kind == "estimate" && m.action == "load_draft" then
      match PayloadId(m.data)
      case Some(id) => s.(notification := Notification(true, id, m.clientId))
      case None => s
    else s
  }

  /** An epic update leaves the length and every epic with another id alone. */
  lemma IncomingUpdateFrame(s: EditorState, e: Epic, clientId: string)
    ensures var r := HandleIncomingUpdate(s, Message("epic", "update", EpicData(e), clientId));
            |r.epics| == |s.epics| &&
            (forall i :: 0 <= i < |s.epics| && s.epics[i].id != e.id ==> r.epics[i] == s.epics[i]) &&
            (!HasId(s.epics, e.id) ==> r.epics == s.epics)
  {
    var r := HandleIncomingUpdate(s, Message("epic", "update", EpicData(e), clientId));
    if !HasId(s.epics, e.id) {
      assert forall i :: 0 <= i < |s.epics| ==> r.epics[i] == s.epics[i];
    }
  }

  /** An epic delete leaves no epic with that id and keeps the others, in order. */
  lemma IncomingDeleteFrame(s: EditorState, id: string, clientId: string)
    ensures var r := HandleIncomingUpdate(s, Message("epic", "delete", IdData(id), clientId));
            !HasId(r.epics, id) &&
            r.epics == RemoveById(s.epics, id) &&
            (!HasId(s.epics, id) ==> r.epics == s.epics) &&
            (forall k :: 0 <= k < |s.epics| && UniqueIds(s.epics) && s.epics[k].id == id ==>
               r.epics == Splice(s.epics, k))
  {
    if !HasId(s.epics, id) {
      RemoveByIdAbsent(s.epics, id);
    }
    forall k | 0 <= k < |s.epics| && UniqueIds(s.epics) && s.epics[k].id == id
      ensures RemoveById(s.epics, id) == Splice(s.epics, k)
    {
      RemoveByIdUnique(s.epics, k);
    }
  }

  // ------------------------------------------------------ outgoing changes

  /** `xs.findIndex((x) => !ys.some((y) => y.id === x.id))` */
  function FirstAbsent(xs: seq<Epic>, ys: seq<Epic>): (r: int)
    ensures -1 <= r < |xs|
    ensures r == -1 <==> forall i :: 0 <= i < |xs| ==> HasId(ys, xs[i].id)
    ensures r >= 0 ==> !HasId(ys, xs[r].id) && forall i :: 0 <= i < r ==> HasId(ys, xs[i].id)
  {
    if xs == [] then -1
    else if !HasId(ys, xs[0].id) then 0
    else
      var r := FirstAbsent(xs[1..], ys);
      if r == -1 then -1 else r + 1
  }

  /**
   * The announcement when the list changed length: an "add" of the first
   * new epic whose id the old list lacks, or a "delete" of the first old
   * epic whose id the new list lacks.
   */
  function ResizeAnnouncement(epics: seq<Epic>, newEpics: seq<Epic>): (r: Option<Outgoing>)
    requires |epics| != |newEpics|
    ensures |newEpics| > |epics| ==>
              var i := FirstAbsent(newEpics, epics);
              r == if i == -1 then None else Some(Outgoing("epic", "add", EpicData(newEpics[i])))
    ensures |newEpics| < |epics| ==>
              var i := FirstAbsent(epics, newEpics);
              r == if i == -1 then None else Some(Outgoing("epic", "delete", IdData(epics[i].id)))
  {
    if |newEpics| > |epics| then
      var i := FirstAbsent(newEpics, epics);
      if i == -1 then None else Some(Outgoing("epic", "add", EpicData(newEpics[i])))
    else
      var i := FirstAbsent(epics, newEpics);
      if i == -1 then None else Some(Outgoing("epic", "delete", IdData(epics[i].id)))
  }

  /**
   * The change classification exactly as written: with equal lengths the
   * search predicate compares each new epic with itself, so it is true at
   * index 0 and the first epic is announced whichever one changed.
   */
  function AnnouncementAsWritten(epics: seq<Epic>, newEpics: seq<Epic>): (r: Option<Outgoing>)
    ensures |epics| == |newEpics| ==>
              r == if newEpics == [] then None else Some(Outgoing("epic", "update", EpicData(newEpics[0])))
  {
    if |epics| != |newEpics| then ResizeAnnouncement(epics, newEpics)
    else if newEpics == [] then None
    else Some(Outgoing("epic", "update", EpicData(newEpics[0])))
  }

  /** Editing the second of two epics announces the first; the receiver never sees the edit. */
  lemma AsWrittenMissesLaterEdit()
    ensures var a := Epic("a", "A", [], []);
            var b := Epic("b", "B", [], []);
            var edited := b.(name := "B2");
            var sent := AnnouncementAsWritten([a, b], [a, edited]);
            var receiver := EditorState("", "", [a, b], NoNotification);
            sent == Some(Outgoing("epic", "update", EpicData(a))) &&
            HandleIncomingUpdate(receiver, Relayed(sent.value, "peer")).epics == [a, b] &&
            [a, b] != [a, edited]
  {
    var a := Epic("a", "A", [], []);
    var b := Epic("b", "B", [], []);
    var receiver := EditorState("", "", [a, b], NoNotification);
    var r := HandleIncomingUpdate(receiver, Message("epic", "update", EpicData(a), "peer"));
    assert r.epics[0] == a && r.epics[1] == b;
  }

  /** The first index at which the two lists hold different epics, or -1. */
  function FirstChanged(epics: seq<Epic>, newEpics: seq<Epic>): (r: int)
    requires |epics| == |newEpics|
    ensures -1 <= r < |epics|
    ensures r == -1 <==> epics == newEpics
    ensures r >= 0 ==> epics[r] != newEpics[r] && epics[..r] == newEpics[..r]
  {
    if epics == [] then -1
    else if epics[0] != newEpics[0] then 0
    else
      var r := FirstChanged(epics[1..], newEpics[1..]);
      assert epics == [epics[0]] + epics[1..] && newEpics == [newEpics[0]] + newEpics[1..];
      if r == -1 then -1
      else
        assert epics[..r + 1] == [epics[0]] + epics[1..][..r];
        assert newEpics[..r + 1] == [newEpics[0]] + newEpics[1..][..r];
        r + 1
  }

  /** The classification the "find which one" search evidently intends: the epic that differs. */
  function Announcement(epics: seq<Epic>, newEpics: seq<Epic>): (r: Option<Outgoing>)
    ensures |epics| == |newEpics| && epics == newEpics ==> r == None
    ensures |epics| == |newEpics| && epics != newEpics ==>
              r.Some? && r.value.kind == "epic" && r.value.action == "update" &&
              r.value.data.EpicData? && r.value.data.epic in newEpics
  {
    if |epics| != |newEpics| then ResizeAnnouncement(epics, newEpics)
    else
      var i := FirstChanged(epics, newEpics);
      if i == -1 then None else Some(Outgoing("epic", "update", EpicData(newEpics[i])))
  }

  /**
   * When the list keeps its length, the epic the corrected classification
   * announces is the first one that differs from the old list at its index.
   */
  lemma AnnouncementNamesChangedEpic(epics: seq<Epic>, newEpics: seq<Epic>)
    requires |epics| == |newEpics| && epics != newEpics
    ensures exists k :: 0 <= k < |epics| && epics[..k] == newEpics[..k] && epics[k] != newEpics[k] &&
              Announcement(epics, newEpics) == Some(Outgoing("epic", "update", EpicData(newEpics[k])))
  {
    var k := FirstChanged(epics, newEpics);
    assert epics[..k] == newEpics[..k] && epics[k] != newEpics[k];
  }

  /** What handleEpicsUpdate leaves behind: the new list installed, and what was announced. */
  datatype EpicsChange = EpicsChange(state: EditorState, sent: Option<Outgoing>)

  function HandleEpicsUpdate(s: EditorState, newEpics: seq<Epic>): (r: EpicsChange)
    ensures r.state == s.(epics := newEpics)
    ensures r.sent == Announcement(s.epics, newEpics)
  {
    EpicsChange(s.(epics := newEpics), Announcement(s.epics, newEpics))
  }

  // ------------------------------------------------ the two ends agree

  /**
   * A peer holding the same epics reaches the sender's new list by applying
   * the announcement: for an epic appended with a fresh id ...
   */
  lemma AddReachesPeer(s: EditorState, e: Epic, clientId: string)
    requires !HasId(s.epics, e.id)
    ensures var change := HandleEpicsUpdate(s, s.epics + [e]);
            change.sent == Some(Outgoing("epic", "add", EpicData(e))) &&
            HandleIncomingUpdate(s, Relayed(change.sent.value, clientId)) == change.state
  {
    var xs := s.epics + [e];
    forall i | 0 <= i < |s.epics|
      ensures HasId(s.epics, xs[i].id)
    {
      assert xs[i] == s.epics[i];
    }
    assert xs[|s.epics|] == e;
    assert FirstAbsent(xs, s.epics) == |s.epics|;
  }

  /** ... for an epic deleted from a list with unique ids ... */
  lemma DeleteReachesPeer(s: EditorState, k: nat, clientId: string)
    requires UniqueIds(s.epics) && k < |s.epics|
    ensures var change := HandleEpicsUpdate(s, Splice(s.epics, k));
            change.sent == Some(Outgoing("epic", "delete", IdData(s.epics[k].id))) &&
            HandleIncomingUpdate(s, Relayed(change.sent.value, clientId)) == change.state
  {
    var xs := Splice(s.epics, k);
    forall i | 0 <= i < k
      ensures HasId(xs, s.epics[i].id)
    {
      assert xs[i] == s.epics[i];
    }
    assert !HasId(xs, s.epics[k].id) by {
      forall j | 0 <= j < |xs|
        ensures xs[j].id != s.epics[k].id
      {
        if j < k {
          assert xs[j] == s.epics[j];
        } else {
          assert xs[j] == s.epics[j + 1];
        }
      }
    }
    assert FirstAbsent(s.epics, xs) == k;
    RemoveByIdUnique(s.epics, k);
  }

  /** ... and for one epic edited in place, keeping its id. */
  lemma UpdateReachesPeer(s: EditorState, k: nat, e: Epic, clientId: string)
    requires UniqueIds(s.epics) && k < |s.epics| && e.id == s.epics[k].id && e != s.epics[k]
    ensures var change := HandleEpicsUpdate(s, s.epics[k := e]);
            change.sent == Some(Outgoing("epic", "update", EpicData(e))) &&
            HandleIncomingUpdate(s, Relayed(change.sent.value, clientId)) == change.state
  {
    var xs := s.epics[k := e];
    assert FirstChanged(s.epics, xs) == k;
    ReplaceByIdUnique(s.epics, k, e);
  }
}

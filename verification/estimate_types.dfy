/**
 * The node shapes of the fixed four-level estimate tree
 * (estimate-management-fe/src/types/index.ts).
 *
 * A JavaScript child list that is absent (`!task.subTasks`) is represented
 * by the empty sequence: every operation of the table treats the two alike.
 * Hours are whole numbers here; the front end keeps them as JavaScript numbers.
 */
module EstimateTypes {

  /** The closed set of roles a personnel entry is kept for. */
  datatype PersonnelType = DEV | BA | TESTER

  /** One role's hours on one node; the source calls the role field `type`. */
  datatype Personnel = Personnel(kind: PersonnelType, value: int)

  datatype SubTask = SubTask(id: string, name: string, personnel: seq<Personnel>)

  datatype Task = Task(id: string, name: string, subTasks: seq<SubTask>, personnel: seq<Personnel>)

  datatype Story = Story(id: string, name: string, tasks: seq<Task>, personnel: seq<Personnel>)

  datatype Epic = Epic(id: string, name: string, stories: seq<Story>, personnel: seq<Personnel>)

  /** The aggregate that is saved and exchanged with the back end. */
  datatype Estimate = Estimate(
    id: string,
    projectName: string,
    startDate: string,
    epics: seq<Epic>,
    createdAt: string,
    isDraft: bool)

  /** The role order of the table's columns and of every new node's personnel. */
  const PersonnelTypes: seq<PersonnelType> := [DEV, BA, TESTER]

  /** One entry per role, in role order: what every node is created with. */
  ghost predicate OnePerRole(ps: seq<Personnel>)
  {
    |ps| == |PersonnelTypes| && forall i :: 0 <= i < |ps| ==> ps[i].kind == PersonnelTypes[i]
  }
}

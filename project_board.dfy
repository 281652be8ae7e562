/** The project-board section of the configuration and its defaults. */
module ProjectBoards {

  datatype ProjectBoardField = ProjectBoardField(name: string, kind: string)

  datatype ProjectBoard = ProjectBoard(
    enabled: bool,
    title: string,
    description: string,
    fields: seq<ProjectBoardField>)

  /** The board is off by default, with a fixed title and description and no fields. */
  function DefaultProjectBoard(): (b: ProjectBoard)
    ensures !b.enabled && b.fields == []
    ensures b.title == "GHAS Reviewer Board"
    ensures b.description == "A project board for managing GHAS alerts"
  {
    ProjectBoard(false, "GHAS Reviewer Board", "A project board for managing GHAS alerts", [])
  }

  /** The default field is a text field named "Severity". */
  function DefaultProjectBoardField(): (f: ProjectBoardField)
    ensures f.name == "Severity" && f.kind == "text"
  {
    ProjectBoardField("Severity", "text")
  }
}

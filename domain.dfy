/** The enumerations shared by the client records and the server's Task schema. */
module Domain {

  datatype Priority = Low | Medium | High

  datatype Status = Todo | Doing | Done

  datatype Role = Admin | Devops | Developer

  /** The JSON spelling of a priority. */
  function PriorityName(p: Priority): string {
    match p
    case Low => "low"
    case Medium => "medium"
    case High => "high"
  }

  /** The JSON spelling of a status. */
  function StatusName(s: Status): string {
    match s
    case Todo => "todo"
    case Doing => "doing"
    case Done => "done"
  }
}

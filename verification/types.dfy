/** The records of the persisted document. */
module Types {

  /** The two roles a user may have. */
  datatype Role = Manager | Employee

  /** A signed-up user; `email` is the exact-match key. */
  datatype User = User(email: string, role: Role)

  /** The approval state of a vacation request. */
  datatype Status = Pending | Approved | Rejected

  /**
   * A vacation request. Ids, dates and timestamps are opaque strings: nothing on
   * the server parses or validates them (the page's form only insists that both
   * dates are filled in).
   */
  datatype Vacation = Vacation(
    id: string,
    employeeEmail: string,
    startDate: string,
    endDate: string,
    status: Status,
    requestedAt: string)

  /** The whole persisted store, read and written as one unit. */
  datatype Document = Document(users: seq<User>, vacations: seq<Vacation>)
}

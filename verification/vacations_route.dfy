/**
 * `/api/vacations`: the listing (GET), the creation (POST) and the status
 * update (PUT) of vacation requests over the persisted document.
 */
module VacationsRoute {
  import opened Wrappers
  import opened Types
  import opened Seqs

  /** A JSON response: a body with status 200, or `{error}` with an HTTP error status. */
  datatype Reply<T> = Ok(body: T) | Err(code: nat, error: string)

  /** The reply of a PUT whose id matches no vacation. */
  const NotFound: Reply<Vacation> := Err(404, "Vacation not found")

  // ---------------------------------------------------------------------------
  // GET: a filter chosen by the `role` parameter alone

  /** The employee filter `v => v.employeeEmail === email`. */
  function OwnedBy(email: Option<string>): Vacation -> bool
  {
    (v: Vacation) => ParamIs(email, v.employeeEmail)
  }

  /**
   * The vacations returned for the query `?email=…&role=…`. Any `status`
   * parameter is not read at all, so it does not appear here.
   */
  function ListVacations(doc: Document, role: Option<string>, email: Option<string>): (r: seq<Vacation>)
    ensures |r| <= |doc.vacations|
    ensures ParamIs(role, "employee") ==>
      forall i :: 0 <= i < |r| ==> r[i] in doc.vacations && ParamIs(email, r[i].employeeEmail)
    ensures ParamIs(role, "employee") ==>
      forall i :: 0 <= i < |doc.vacations| ==>
        (doc.vacations[i] in r <==> ParamIs(email, doc.vacations[i].employeeEmail))
    ensures ParamIs(role, "manager") ==> r == doc.vacations
    ensures !ParamIs(role, "employee") && !ParamIs(role, "manager") ==> r == []
  {
    if role == Some("employee") then Filter(doc.vacations, OwnedBy(email))
    else if role == Some("manager") then doc.vacations
    else []
  }

  /**
   * The employee listing keeps store order: listing a store made of two parts
   * lists the first part's vacations, then the second part's.
   */
  lemma EmployeeListingKeepsOrder(users: seq<User>, a: seq<Vacation>, b: seq<Vacation>, email: Option<string>)
    ensures ListVacations(Document(users, a + b), Some("employee"), email)
         == ListVacations(Document(users, a), Some("employee"), email)
          + ListVacations(Document(users, b), Some("employee"), email)
  {
    FilterConcat(a, b, OwnedBy(email));
  }

  /** An employee whose vacations are all their own sees the whole store. */
  lemma EmployeeSeesAllOwnVacations(doc: Document, email: string)
    requires forall i :: 0 <= i < |doc.vacations| ==> doc.vacations[i].employeeEmail == email
    ensures ListVacations(doc, Some("employee"), Some(email)) == doc.vacations
  {
    FilterKeepsAll(doc.vacations, OwnedBy(Some(email)));
  }

  // ---------------------------------------------------------------------------
  // PUT: `findIndex` on the id, then an overwrite of `status` at that index

  /** `j` is the first index of `vs` whose id is `id`. */
  predicate IsFirstWithId(vs: seq<Vacation>, j: int, id: string)
  {
    0 <= j < |vs| && vs[j].id == id && forall k :: 0 <= k < j ==> vs[k].id != id
  }

  /** Some vacation of `vs` has the id `id`. */
  predicate HasId(vs: seq<Vacation>, id: string)
  {
    exists j :: 0 <= j < |vs| && vs[j].id == id
  }

  /** `findIndex(v => v.id === id)`: the first matching index, or -1 when there is none. */
  function FindIndex(vs: seq<Vacation>, id: string): (r: int)
    ensures -1 <= r < |vs|
    ensures r == -1 <==> !HasId(vs, id)
    ensures r != -1 ==> IsFirstWithId(vs, r, id)
  {
    if vs == [] then -1
    else if vs[0].id == id then 0
    else
      var k := FindIndex(vs[1..], id);
      if k == -1 then -1 else k + 1
  }

  /** Two records that agree on everything except possibly their status. */
  predicate SameButStatus(v: Vacation, w: Vacation)
  {
    v.id == w.id && v.employeeEmail == w.employeeEmail && v.startDate == w.startDate &&
    v.endDate == w.endDate && v.requestedAt == w.requestedAt
  }

  /**
   * The vacations after a PUT of `status` on `id`: only the first record with
   * that id gets the new status, whatever its old one was; every other record,
   * later ones with the same id included, is untouched.
   */
  function StatusUpdated(vs: seq<Vacation>, id: string, status: Status): (r: seq<Vacation>)
    ensures |r| == |vs|
    ensures forall j :: 0 <= j < |vs| ==> SameButStatus(r[j], vs[j])
    ensures forall j :: 0 <= j < |vs| ==>
      r[j].status == if IsFirstWithId(vs, j, id) then status else vs[j].status
    ensures !HasId(vs, id) ==> r == vs
  {
    var i := FindIndex(vs, id);
    if i == -1 then vs else vs[i := vs[i].(status := status)]
  }

  /** The ids are what a PUT never changes, so the index it finds stays the same. */
  lemma StatusUpdatedKeepsIndex(vs: seq<Vacation>, id: string, status: Status)
    ensures FindIndex(StatusUpdated(vs, id, status), id) == FindIndex(vs, id)
  {
  }

  /** Status is an unguarded overwrite: of two PUTs on the same id, the later one wins. */
  lemma LastUpdateWins(vs: seq<Vacation>, id: string, s1: Status, s2: Status)
    ensures StatusUpdated(StatusUpdated(vs, id, s1), id, s2) == StatusUpdated(vs, id, s2)
  {
  }

  /** Repeating the same PUT leaves the document as the first one left it. */
  lemma UpdateIdempotent(vs: seq<Vacation>, id: string, status: Status)
    ensures StatusUpdated(StatusUpdated(vs, id, status), id, status) == StatusUpdated(vs, id, status)
  {
  }

  // ---------------------------------------------------------------------------
  // The persisted document and the handlers that write it

  /**
   * The JSON document on disk. Each handler reads it whole and, when it writes,
   * writes it whole; `writes` counts those writes.
   */
  class JsonStore {
    var users: seq<User>
    var vacations: seq<Vacation>
    var writes: nat

    constructor (doc: Document)
      ensures users == doc.users && vacations == doc.vacations && writes == 0
    {
      users := doc.users;
      vacations := doc.vacations;
      writes := 0;
    }

    /** The document as a value. */
    function Contents(): (d: Document)
      reads this
      ensures d.users == users && d.vacations == vacations
    {
      Document(users, vacations)
    }

    /** Overwrites the file with the document as it now is. */
    method Save()
      modifies this`writes
      ensures writes == old(writes) + 1
    {
      writes := writes + 1;
    }

    /** GET: reads the document and changes nothing. */
    method Get(role: Option<string>, email: Option<string>) returns (r: seq<Vacation>)
      ensures r == ListVacations(Contents(), role, email)
    {
      r := ListVacations(Contents(), role, email);
    }

    /**
     * POST: appends the body as given, with no check of its id or fields,
     * saves, and answers with the body itself.
     */
    method Post(vacation: Vacation) returns (r: Reply<Vacation>)
      modifies this
      ensures vacations == old(vacations) + [vacation]
      ensures users == old(users)
      ensures writes == old(writes) + 1
      ensures r == Ok(vacation)
    {
      vacations := vacations + [vacation];
      Save();
      r := Ok(vacation);
    }

    /**
     * PUT: sets the status of the first vacation with id `vacationId` and saves,
     * answering with the updated record; when there is none, answers 404 and
     * neither changes nor writes anything.
     */
    method Put(vacationId: string, status: Status) returns (r: Reply<Vacation>)
      modifies this
      ensures vacations == StatusUpdated(old(vacations), vacationId, status)
      ensures users == old(users)
      ensures HasId(old(vacations), vacationId) ==>
        writes == old(writes) + 1 &&
        r == Ok(vacations[FindIndex(old(vacations), vacationId)])
      ensures !HasId(old(vacations), vacationId) ==>
        writes == old(writes) && vacations == old(vacations) && r == NotFound
    {
      var vacationIndex := FindIndex(vacations, vacationId);
      if vacationIndex != -1 {
        vacations := vacations[vacationIndex := vacations[vacationIndex].(status := status)];
        Save();
        r := Ok(vacations[vacationIndex]);
        return;
      }
      r := NotFound;
    }
  }
}

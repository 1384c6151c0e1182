/**
 * The client page: which view to show, the employee's request form and list,
 * and the manager's list of pending requests. Only the state each handler
 * sets is modelled; responses of the HTTP calls arrive as parameters.
 */
module Dashboard {
  import opened Wrappers
  import opened Types
  import opened Seqs
  import UserRoute
  import VacationsRoute

  // ---------------------------------------------------------------------------
  // Choosing the view

  datatype View = SignInPrompt | EmployeeView | ManagerView

  /**
   * The user the page holds once its first lookup has answered: the lookup runs
   * only for a non-empty `email` parameter, and otherwise the user is still the
   * initial `null`. A later change of the parameter is not modelled: a missing
   * or empty one leaves the user already set, and a non-empty one repeats the
   * lookup and replaces it.
   */
  function SignedInUser(users: seq<User>, emailParam: Option<string>): (r: Option<User>)
    ensures emailParam == None || emailParam == Some("") ==> r == None
    ensures r.Some? ==> r.value in users && emailParam == Some(r.value.email)
  {
    if emailParam == None || emailParam == Some("") then None
    else UserRoute.FindUser(users, emailParam)
  }

  /** No user: the sign-in prompt; an employee: their dashboard; anyone else: the manager's. */
  function ChooseView(user: Option<User>): (v: View)
    ensures v == SignInPrompt <==> user == None
    ensures v == EmployeeView <==> user.Some? && user.value.role == Employee
    ensures v == ManagerView <==> user.Some? && user.value.role != Employee
  {
    if user == None then SignInPrompt
    else if user.value.role == Employee then EmployeeView
    else ManagerView
  }

  /**
   * Once the lookup has answered, the sign-in prompt shows exactly when the
   * parameter is missing or empty, or names no user.
   */
  lemma SignInPromptIffUnknown(users: seq<User>, emailParam: Option<string>)
    ensures ChooseView(SignedInUser(users, emailParam)) == SignInPrompt <==>
      emailParam == None || emailParam == Some("") ||
      forall i :: 0 <= i < |users| ==> users[i].email != emailParam.value
  {
  }

  /** With a known email, the view follows the role of the first user holding it. */
  lemma ViewFollowsFirstMatch(users: seq<User>, email: string, k: nat)
    requires email != ""
    requires k < |users| && users[k].email == email
    requires forall j :: 0 <= j < k ==> users[j].email != email
    ensures ChooseView(SignedInUser(users, Some(email))) ==
      if users[k].role == Employee then EmployeeView else ManagerView
  {
  }

  // ---------------------------------------------------------------------------
  // The employee's request form and lists

  /** The two date inputs of the request form. */
  datatype DateForm = DateForm(startDate: string, endDate: string)

  const EmptyForm := DateForm("", "")

  /** The email every request is filed under, whoever is signed in. */
  const PlaceholderEmail := "current_user@example.com"

  /**
   * The request the form submits. The id and the timestamp come from the
   * browser's random-UUID generator and clock, so they are parameters here.
   */
  function NewRequest(form: DateForm, id: string, requestedAt: string): (v: Vacation)
    ensures v.status == Pending && v.employeeEmail == PlaceholderEmail
    ensures v.startDate == form.startDate && v.endDate == form.endDate
    ensures v.id == id && v.requestedAt == requestedAt
  {
    Vacation(id, PlaceholderEmail, form.startDate, form.endDate, Pending, requestedAt)
  }

  /**
   * Once stored, a request does not show in the listing of a signed-in employee
   * whose email is not the placeholder: it is filed under the placeholder.
   */
  lemma RequestNotListedForOthers(doc: Document, form: DateForm, id: string, requestedAt: string, email: string)
    requires email != PlaceholderEmail
    ensures VacationsRoute.ListVacations(
              Document(doc.users, doc.vacations + [NewRequest(form, id, requestedAt)]),
              Some("employee"), Some(email))
         == VacationsRoute.ListVacations(doc, Some("employee"), Some(email))
  {
    var v := NewRequest(form, id, requestedAt);
    FilterConcat(doc.vacations, [v], VacationsRoute.OwnedBy(Some(email)));
  }

  /** The tab filters `v => v.status === 'pending'` and `v => v.status !== 'pending'`. */
  const IsPending: Vacation -> bool := (v: Vacation) => v.status == Pending
  const IsProcessed: Vacation -> bool := (v: Vacation) => v.status != Pending

  /** The "Pending Requests" tab: the pending vacations of the list, in list order. */
  function PendingOf(vs: seq<Vacation>): (r: seq<Vacation>)
    ensures |r| <= |vs|
    ensures forall i :: 0 <= i < |r| ==> r[i] in vs && r[i].status == Pending
    ensures forall i :: 0 <= i < |vs| ==> (vs[i] in r <==> vs[i].status == Pending)
  {
    Filter(vs, IsPending)
  }

  /** The "Processed Requests" tab: the approved and rejected vacations, in list order. */
  function ProcessedOf(vs: seq<Vacation>): (r: seq<Vacation>)
    ensures |r| <= |vs|
    ensures forall i :: 0 <= i < |r| ==> r[i] in vs && r[i].status != Pending
    ensures forall i :: 0 <= i < |vs| ==> (vs[i] in r <==> vs[i].status != Pending)
  {
    Filter(vs, IsProcessed)
  }

  /** The two tabs split the list: every vacation is in exactly one of them. */
  lemma TabsPartitionList(vs: seq<Vacation>)
    ensures |PendingOf(vs)| + |ProcessedOf(vs)| == |vs|
    ensures multiset(PendingOf(vs)) + multiset(ProcessedOf(vs)) == multiset(vs)
  {
    FilterPartition(vs, IsPending, IsProcessed);
  }

  /** Both tabs keep list order: a list made of two parts splits part by part. */
  lemma TabsKeepOrder(a: seq<Vacation>, b: seq<Vacation>)
    ensures PendingOf(a + b) == PendingOf(a) + PendingOf(b)
    ensures ProcessedOf(a + b) == ProcessedOf(a) + ProcessedOf(b)
  {
    FilterConcat(a, b, IsPending);
    FilterConcat(a, b, IsProcessed);
  }

  /** A newly submitted request always lands first in the "Pending Requests" tab. */
  lemma SubmittedRequestIsPendingFirst(vs: seq<Vacation>, form: DateForm, id: string, requestedAt: string)
    ensures PendingOf([NewRequest(form, id, requestedAt)] + vs) == [NewRequest(form, id, requestedAt)] + PendingOf(vs)
    ensures ProcessedOf([NewRequest(form, id, requestedAt)] + vs) == ProcessedOf(vs)
  {
  }

  // ---------------------------------------------------------------------------
  // The manager's pending list

  /** The removal filter `v => v.id !== vacationId`. */
  function IdIsNot(id: string): Vacation -> bool
  {
    (v: Vacation) => v.id != id
  }

  /** The pending list after an action on `id`: every entry with another id, in order. */
  function WithoutId(vs: seq<Vacation>, id: string): (r: seq<Vacation>)
    ensures |r| <= |vs|
    ensures forall i :: 0 <= i < |r| ==> r[i] in vs && r[i].id != id
    ensures forall i :: 0 <= i < |vs| ==> (vs[i] in r <==> vs[i].id != id)
  {
    Filter(vs, IdIsNot(id))
  }

  /** Removal keeps order: a list made of two parts loses the id part by part. */
  lemma RemovalKeepsOrder(a: seq<Vacation>, b: seq<Vacation>, id: string)
    ensures WithoutId(a + b, id) == WithoutId(a, id) + WithoutId(b, id)
  {
    FilterConcat(a, b, IdIsNot(id));
  }

  /** Acting on an id the list does not hold leaves the list as it was. */
  lemma RemovingAbsentIdKeepsList(vs: seq<Vacation>, id: string)
    requires !VacationsRoute.HasId(vs, id)
    ensures WithoutId(vs, id) == vs
  {
    FilterKeepsAll(vs, IdIsNot(id));
  }

  // ---------------------------------------------------------------------------
  // The dashboards' component state

  /** How a request the page sent turned out; a failure carries the message extracted from it. */
  datatype Outcome = Succeeded | Failed(message: string)

  class EmployeeDashboard {
    var vacations: seq<Vacation>
    var newVacation: DateForm
    var error: Option<string>

    constructor ()
      ensures vacations == [] && newVacation == EmptyForm && error == None
    {
      vacations := [];
      newVacation := EmptyForm;
      error := None;
    }

    /** The list fetched on mount replaces the list; a failed fetch sets the error instead. */
    method Load(response: VacationsRoute.Reply<seq<Vacation>>)
      modifies this
      ensures response.Ok? ==> vacations == response.body && error == old(error)
      ensures response.Err? ==> vacations == old(vacations) && error == Some("Failed to fetch vacations")
      ensures newVacation == old(newVacation)
    {
      if response.Err? {
        error := Some("Failed to fetch vacations");
        return;
      }
      vacations := response.body;
    }

    /** Typing into the start-date input. */
    method EditStartDate(date: string)
      modifies this`newVacation
      ensures newVacation == old(newVacation).(startDate := date)
    {
      newVacation := newVacation.(startDate := date);
    }

    /** Typing into the end-date input. */
    method EditEndDate(date: string)
      modifies this`newVacation
      ensures newVacation == old(newVacation).(endDate := date)
    {
      newVacation := newVacation.(endDate := date);
    }

    /**
     * Submitting the form: the request built from the form is sent; on success
     * it is put at the head of the list and the form is cleared, on failure
     * only the error is set. Both date inputs are `required`, so the browser
     * submits the form only once both dates are filled in.
     */
    method SubmitVacation(id: string, requestedAt: string, outcome: Outcome) returns (request: Vacation)
      requires newVacation.startDate != "" && newVacation.endDate != ""
      modifies this
      ensures request == NewRequest(old(newVacation), id, requestedAt)
      ensures outcome.Succeeded? ==>
        vacations == [request] + old(vacations) && newVacation == EmptyForm && error == old(error)
      ensures outcome.Failed? ==>
        vacations == old(vacations) && newVacation == old(newVacation) && error == Some(outcome.message)
    {
      request := NewRequest(newVacation, id, requestedAt);
      if outcome.Failed? {
        error := Some(outcome.message);
        return;
      }
      vacations := [request] + vacations;
      newVacation := EmptyForm;
    }
  }

  class ManagerDashboard {
    var pendingVacations: seq<Vacation>
    var error: Option<string>

    constructor ()
      ensures pendingVacations == [] && error == None
    {
      pendingVacations := [];
      error := None;
    }

    /** The list fetched on mount replaces the list; a failed fetch sets the error instead. */
    method Load(response: VacationsRoute.Reply<seq<Vacation>>)
      modifies this
      ensures response.Ok? ==> pendingVacations == response.body && error == old(error)
      ensures response.Err? ==>
        pendingVacations == old(pendingVacations) && error == Some("Failed to fetch pending vacations")
    {
      if response.Err? {
        error := Some("Failed to fetch pending vacations");
        return;
      }
      pendingVacations := response.body;
    }

    /**
     * Approving or rejecting the request `vacationId`: on success it leaves the
     * list, on failure only the error is set.
     */
    method Act(vacationId: string, outcome: Outcome)
      modifies this
      ensures outcome.Succeeded? ==>
        pendingVacations == WithoutId(old(pendingVacations), vacationId) && error == old(error)
      ensures outcome.Failed? ==>
        pendingVacations == old(pendingVacations) && error == Some(outcome.message)
    {
      if outcome.Failed? {
        error := Some(outcome.message);
        return;
      }
      pendingVacations := WithoutId(pendingVacations, vacationId);
    }
  }

  /**
   * Both dashboards fetch the listing without a `role` parameter (the manager
   * sends `status=pending`, which the listing does not read), so what they load
   * from the listing is always empty.
   */
  lemma DashboardFetchesListNothing(doc: Document)
    ensures VacationsRoute.ListVacations(doc, None, None) == []
  {
  }
}

/**
 * `GET /api/user?email=…`: the first user whose email is exactly the query, or
 * `null`. The route only reads the document.
 */
module UserRoute {
  import opened Wrappers
  import opened Types

  /**
   * `users.find(u => u.email === email) || null`: a linear scan that stops at
   * the first match. A missing query never matches, so it yields `None` too.
   */
  function FindUser(users: seq<User>, email: Option<string>): (r: Option<User>)
    ensures r.Some? ==> email == Some(r.value.email)
    ensures r.Some? ==> exists i :: 0 <= i < |users| && users[i] == r.value &&
                          forall j :: 0 <= j < i ==> !ParamIs(email, users[j].email)
    ensures r.None? <==> forall i :: 0 <= i < |users| ==> !ParamIs(email, users[i].email)
  {
    if users == [] then None
    else if ParamIs(email, users[0].email) then Some(users[0])
    else
      var r := FindUser(users[1..], email);
      assert r.Some? ==> exists i :: 0 <= i < |users[1..]| && users[1..][i] == r.value &&
                          forall j :: 0 <= j < i ==> !ParamIs(email, users[1..][j].email);
      r
  }

  /** The route handler: the lookup runs over the users of the loaded document. */
  function Get(doc: Document, email: Option<string>): (r: Option<User>)
    ensures r.Some? ==> r.value in doc.users && email == Some(r.value.email)
    ensures email.None? ==> r.None?
    ensures r.None? <==> forall i :: 0 <= i < |doc.users| ==> !ParamIs(email, doc.users[i].email)
  {
    FindUser(doc.users, email)
  }

  /** Users are kept in order: the user found is the first of those with that email. */
  lemma FindUserIsFirst(users: seq<User>, email: string, k: nat)
    requires k < |users| && users[k].email == email
    requires forall j :: 0 <= j < k ==> users[j].email != email
    ensures FindUser(users, Some(email)) == Some(users[k])
  {
  }
}

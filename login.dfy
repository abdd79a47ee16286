/** The login screen (views/Login.tsx): a user is picked from a list and
    entered without any credential. */
module Login {
  import opened Wrappers
  import opened Types

  /** `availableUsers.find(u => u.id === id)`: the first user with that id. */
  function FindUser(users: seq<User>, id: string): (r: Option<User>)
    ensures r.None? <==> forall k :: 0 <= k < |users| ==> users[k].id != id
    ensures r.Some? ==> r.value in users && r.value.id == id
  {
    if users == [] then None
    else if users[0].id == id then Some(users[0])
    else FindUser(users[1..], id)
  }

  /** The user found is the first entry carrying the id. */
  lemma {:induction false} FindUserFirst(users: seq<User>, k: nat)
    requires k < |users|
    requires forall j :: 0 <= j < k ==> users[j].id != users[k].id
    ensures FindUser(users, users[k].id) == Some(users[k])
  {
    if k > 0 {
      FindUserFirst(users[1..], k - 1);
    }
  }

  /** The enter button: disabled while no user is selected, so nothing
      happens then; otherwise `handleEnter` hands the first user with the
      selected id to `onLogin` (the result here), or does nothing when no
      user has it. */
  function Enter(users: seq<User>, selectedUserId: string): (r: Option<User>)
    ensures selectedUserId == "" ==> r.None?
    ensures r.Some? ==> r.value in users && r.value.id == selectedUserId
    ensures r.None? && selectedUserId != "" ==> forall u :: u in users ==> u.id != selectedUserId
  {
    if selectedUserId == "" then None else FindUser(users, selectedUserId)
  }

  /** Selecting a user is enough to log in as that user: no password is
      asked, whatever the account's password is. */
  lemma SelectionAloneLogsIn(users: seq<User>, k: nat)
    requires k < |users| && users[k].id != ""
    requires forall j :: 0 <= j < k ==> users[j].id != users[k].id
    ensures Enter(users, users[k].id) == Some(users[k])
  {
    FindUserFirst(users, k);
  }
}

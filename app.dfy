/** The application shell (App.tsx): the user roster, the submission list and
    the logged-in user, updated by the handlers; each remote call's outcome is
    a parameter. */
module App {
  import opened Wrappers
  import opened Types
  import opened Dashboard

  /** The screen the shell shows. */
  datatype View = LoadingScreen | LoginScreen | DashboardScreen | ChecklistScreen

  /** The row `addSubmission` sends to the store: snake_case columns, no id and
      no timestamp (the store assigns both). */
  datatype SubmissionRow = SubmissionRow(
    user_id: Option<string>,
    user_name: Option<string>,
    completed_items: Option<seq<int>>,
    is_full_complete: Option<bool>,
    notes: Option<string>)

  /** The mapping of `addSubmission` from the camelCase record to the row. */
  function ToRow(sub: Submission): (row: SubmissionRow)
    ensures row.user_id == sub.userId && row.user_name == sub.userName
    ensures row.completed_items == sub.completedItems && row.is_full_complete == sub.isFullComplete
    ensures row.notes == sub.notes
  {
    SubmissionRow(sub.userId, sub.userName, sub.completedItems, sub.isFullComplete, sub.notes)
  }

  /** A stored row as the live feed delivers it: only the snake_case
      columns, with the id and the timestamp the store assigned. */
  function FromStore(row: SubmissionRow, id: string, date: string): (s: Submission)
    ensures s.id == id && s.date == date
    ensures s.userId.None? && s.userName.None? && s.completedItems.None? && s.isFullComplete.None?
    ensures s.user_id == row.user_id && s.user_name == row.user_name
    ensures s.completed_items == row.completed_items && s.is_full_complete == row.is_full_complete
    ensures s.notes == row.notes
  {
    Submission(id, None, row.user_id, None, row.user_name, date,
               None, row.completed_items, None, row.is_full_complete, row.notes)
  }

  /** A record built on the checklist screen survives the trip through the
      store and the normaliser: name, items, flag and notes come back as they
      were sent, provided the name is not empty. */
  lemma RowRoundTrip(sub: Submission, id: string, date: string)
    requires Truthy(sub.userName) && sub.completedItems.Some? && sub.isFullComplete.Some?
    ensures var back := Normalize(FromStore(ToRow(sub), id, date));
            back.userName == sub.userName && back.completedItems == sub.completedItems &&
            back.isFullComplete == sub.isFullComplete && back.notes == sub.notes &&
            back.user_id == sub.userId
  {
  }

  /** An empty name does not survive: the normaliser falls back to the absent
      camelCase field. */
  lemma EmptyNameIsLost(sub: Submission, id: string, date: string)
    requires sub.userName == Some("")
    ensures Normalize(FromStore(ToRow(sub), id, date)).userName.None?
  {
  }

  /** `prev.filter(u => u.id !== id)`. */
  function UsersWithout(users: seq<User>, id: string): (r: seq<User>)
    ensures forall u :: u in r <==> u in users && u.id != id
    ensures |r| <= |users|
  {
    if users == [] then []
    else (if users[0].id == id then [] else [users[0]]) + UsersWithout(users[1..], id)
  }

  /** Removing an id keeps the other users in their order: the result over a
      concatenation is the concatenation of the results. */
  lemma {:induction false} UsersWithoutAppend(a: seq<User>, b: seq<User>, id: string)
    ensures UsersWithout(a + b, id) == UsersWithout(a, id) + UsersWithout(b, id)
  {
    if a == [] {
      assert a + b == b;
    } else {
      assert (a + b)[0] == a[0] && (a + b)[1..] == a[1..] + b;
      UsersWithoutAppend(a[1..], b, id);
    }
  }

  /** Removing an id nobody has changes nothing. */
  lemma {:induction false} UsersWithoutAbsent(users: seq<User>, id: string)
    requires forall k :: 0 <= k < |users| ==> users[k].id != id
    ensures UsersWithout(users, id) == users
  {
    if users != [] {
      UsersWithoutAbsent(users[1..], id);
      assert users == [users[0]] + users[1..];
    }
  }

  /** The order the store hands submissions out in: newest first, comparing
      the ISO-8601 timestamps as text. */
  predicate NewestFirst(subs: seq<Submission>) {
    forall i :: 0 <= i < |subs| - 1 ==> TextLe(subs[i + 1].date, subs[i].date)
  }

  /** Lexicographic order on text. */
  predicate TextLe(a: string, b: string) {
    if a == [] then true
    else if b == [] then false
    else a[0] < b[0] || (a[0] == b[0] && TextLe(a[1..], b[1..]))
  }

  /** A feed row at least as recent as the current newest keeps the list
      newest first. */
  lemma FeedKeepsNewestFirst(subs: seq<Submission>, row: Submission)
    requires NewestFirst(subs)
    requires subs != [] ==> TextLe(subs[0].date, row.date)
    ensures NewestFirst([row] + subs)
  {
    var s := [row] + subs;
    forall i | 0 <= i < |s| - 1 ensures TextLe(s[i + 1].date, s[i].date) {
      if i > 0 {
        assert s[i + 1] == subs[i] && s[i] == subs[i - 1];
      }
    }
  }

  /** A feed row older than the current newest lands in front anyway: the
      list is no longer newest first. */
  lemma FeedOlderRowBreaksOrder(subs: seq<Submission>, row: Submission)
    requires subs != [] && !TextLe(subs[0].date, row.date)
    ensures !NewestFirst([row] + subs)
  {
    var s := [row] + subs;
    assert s[0] == row && s[0 + 1] == subs[0];
    assert !TextLe(s[0 + 1].date, s[0].date);
  }

  /** The shell's state. */
  class Store {
    var currentUser: Option<User>
    var users: seq<User>
    var submissions: seq<Submission>
    var loading: bool

    constructor ()
      ensures currentUser.None? && users == [] && submissions == [] && loading
    {
      currentUser := None;
      users := [];
      submissions := [];
      loading := true;
    }

    /** `fetchData`: the users (ordered by name by the store) and then the
        submissions (newest first) are loaded; a failed user fetch skips the
        submission fetch, and loading ends either way. */
    method FetchData(userFetch: Result<seq<User>, string>, subFetch: Result<seq<Submission>, string>)
      modifies this`users, this`submissions, this`loading
      ensures !loading
      ensures userFetch.Success? ==> users == userFetch.value
      ensures userFetch.Failure? ==> users == old(users)
      ensures userFetch.Success? && subFetch.Success? ==> submissions == subFetch.value
      ensures userFetch.Failure? || subFetch.Failure? ==> submissions == old(submissions)
    {
      loading := true;
      if userFetch.Success? {
        users := userFetch.value;
        if subFetch.Success? {
          submissions := subFetch.value;
        }
      }
      loading := false;
    }

    /** The live feed reported an insert: the row goes in front, with no
        check for an id already present. */
    method OnFeedInsert(row: Submission)
      modifies this`submissions
      ensures submissions == [row] + old(submissions)
      ensures |submissions| == |old(submissions)| + 1 && submissions[1..] == old(submissions)
    {
      submissions := [row] + submissions;
    }

    method HandleLogin(u: User)
      modifies this`currentUser
      ensures currentUser == Some(u)
    {
      currentUser := Some(u);
    }

    method HandleLogout()
      modifies this`currentUser
      ensures currentUser.None?
    {
      currentUser := None;
    }

    /** `addUser`: on failure the roster is left alone; on success the row
        the store returns is appended at the end. */
    method AddUser(inserted: Result<User, string>)
      modifies this`users
      ensures inserted.Failure? ==> users == old(users)
      ensures inserted.Success? ==> users == old(users) + [inserted.value]
    {
      if inserted.Success? {
        users := users + [inserted.value];
      }
    }

    /** `removeUser`: on failure the roster is left alone; on success every
        user with the id is dropped and the others keep their order. */
    method RemoveUser(id: string, deleted: Outcome<string>)
      modifies this`users
      ensures deleted.Fail? ==> users == old(users)
      ensures deleted.Pass? ==> users == UsersWithout(old(users), id)
    {
      if deleted.Pass? {
        users := UsersWithout(users, id);
      }
    }

    /** `addSubmission`: the row is sent to the store and a failure is only
        reported; the local list is never touched, whatever the outcome. */
    method AddSubmission(sub: Submission, inserted: Outcome<string>) returns (row: SubmissionRow, warned: bool)
      ensures row == ToRow(sub)
      ensures warned <==> inserted.Fail?
    {
      row := ToRow(sub);
      warned := inserted.Fail?;
    }

    /** The screen for the current state: the spinner while loading, the
        login screen with nobody logged in, the dashboard for an
        administrator and the checklist for anyone else. */
    function CurrentView(): (v: View)
      reads this
      ensures v == LoadingScreen <==> loading
      ensures v == LoginScreen <==> !loading && currentUser.None?
      ensures v == DashboardScreen <==> !loading && currentUser.Some? && currentUser.value.role == Admin
      ensures v == ChecklistScreen <==> !loading && currentUser.Some? && currentUser.value.role != Admin
    {
      if loading then LoadingScreen
      else if currentUser.None? then LoginScreen
      else if currentUser.value.role == Admin then DashboardScreen
      else ChecklistScreen
    }
  }

  /** A submission reaches the local list only through the feed: sending it
      leaves the list alone, and the feed's report of the stored row adds
      exactly one entry in front. */
  method SubmitThenFeed(store: Store, sub: Submission, outcome: Outcome<string>, id: string, date: string)
    modifies store`submissions
    ensures |store.submissions| == |old(store.submissions)| + 1
    ensures store.submissions[0] == FromStore(ToRow(sub), id, date)
    ensures store.submissions == [FromStore(ToRow(sub), id, date)] + old(store.submissions)
  {
    var row, _ := store.AddSubmission(sub, outcome);
    assert store.submissions == old(store.submissions);
    store.OnFeedInsert(FromStore(row, id, date));
  }
}

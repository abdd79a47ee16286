# CaixaMaster checklist core, modelled in Dafny

CaixaMaster is a checklist tool for cash-register staff. A collaborator works
through a fixed, ordered list of 20 opening and closing steps, confirms with a
password and submits a record; a supervisor sees the submission history, a few
summary figures and a seven-day activity chart, and manages the staff roster.

This project models the logic behind those screens:

- `types.dfy` (module `Types`): the record shapes (`User`, `ChecklistItem`,
  `Submission` with both its camelCase fields and their snake_case twins) and
  the constant catalogue `CHECKLIST_ITEMS`.
- `checklist.dfy` (module `Checklist`): the collaborator's session. The list
  updaters behind the item and section toggles are pure functions (`Toggled`,
  `SectionToggled`); the session itself is the class `Session`, whose methods
  are the screen's handlers (toggle, section toggle, notes, password field,
  open and cancel the password prompt, final submit, new checklist).
- `dashboard.dfy` (module `Dashboard`): the normaliser that reconciles the two
  field-naming conventions, the summary figures, the seven-day chart with its
  `MM/DD` labels, the roster filter and the new-collaborator form (class
  `NewCollaboratorForm`).
- `login.dfy` (module `Login`): picking a user to log in.
- `app.dfy` (module `App`): the application state (class `Store`: roster,
  submission list, logged-in user) and its handlers, the row sent to the store
  on submission, and the screen routing by role.
- `lists.dfy` (module `Lists`) and `wrappers.dfy` (module `Wrappers`): the
  sequence filters the screens use and the `Option`/`Result`/`Outcome` types.

Remote calls (the database and its live feed) are not modelled as calls: each
handler takes the call's outcome as a parameter. The clock and the id
generator are parameters too: a new submission receives its id and timestamp
from the caller, and the chart receives the seven calendar days
(`YYYY-MM-DD`, today first) it covers.

Behaviour worth noting, all taken from the code as written:

- The live-feed handler puts every reported row in front of the list and never
  checks whether its id is already there (`App.Store.OnFeedInsert`).
- Sending a submission never changes the local list, whether the store accepts
  it or not; a submission becomes visible only when the feed reports it
  (`App.Store.AddSubmission`, `App.SubmitThenFeed`). Nothing is appended
  optimistically and nothing is rolled back.
- The list is newest first only as long as the feed reports rows in that
  order; an older row reported late lands in front
  (`App.FeedOlderRowBreaksOrder`). Nothing re-sorts locally.
- The normaliser gives `isFullComplete` no default: a record with neither
  `is_full_complete` nor `isFullComplete` keeps it absent. An explicit `false`
  in `is_full_complete` wins over the camelCase field, while an empty
  `user_name` falls back to `userName`.
- An account whose password field is undefined passes the submission check
  with any typed text; one whose password column the store returns as `null`
  fails it for every typed text, because the check compares with `===` and
  `null` is not `undefined` (`Checklist.AuthenticationCases`). Logging in
  asks for no credential at all.
- Pressing a section button twice restores the checked list when none of
  that section was checked (`Checklist.SectionToggleTwiceRestores`), or when
  the whole section was checked and its ids ended the list in catalogue
  order (`Checklist.FullSectionAtEndRestores`). With part of the section checked, the two
  presses uncheck the whole section (`Checklist.PartlyCheckedSectionNotRestored`);
  with the whole section checked and another id checked after it, that id
  ends up in front of the section (`Checklist.FullSectionNotLastReordered`).
- The dashboard computes its figures over the normalised list. For rows
  delivered by the store this means the snake_case columns decide the
  complete count and the item total (`Dashboard.StoreRowStats`).
- `toggleItem` does not reject an id outside the catalogue; the model keeps
  "only catalogue ids" as a property that holds as long as the checkboxes (the
  only callers) pass catalogue ids.
- The role check for the dashboard is made only when choosing the screen;
  the roster handlers themselves do not check the caller's role.

## Model

| member | source | states |
|---|---|---|
| Types.CatalogueShape | types.ts:36-60 | the catalogue has 20 entries, entry i has id i+1, and an entry is in the opening section exactly when its id is at most 15 |
| Types.ItemIdRange | types.ts:38-59 | the catalogue ids are exactly the integers 1..20 |
| Lists.RemoveAll | views/CollaboratorChecklist.tsx:22 | filtering out an id removes every occurrence of it and keeps every other value with its multiplicity |
| Lists.Without | views/CollaboratorChecklist.tsx:38 | filtering out a set of ids keeps exactly the values outside it, never lengthening the list |
| Lists.Reverse | views/AdminDashboard.tsx:56-57 | the reversal keeps the length, and element k of the result is element |s|-1-k of the input |
| Lists.RemoveAllAppend | views/CollaboratorChecklist.tsx:22 | the filter acts piecewise on a concatenation, so the kept values stay in their order |
| Lists.WithoutAppend | views/CollaboratorChecklist.tsx:41 | the section filter acts piecewise on a concatenation, so the kept ids stay in their order |
| Checklist.IdsIn | views/CollaboratorChecklist.tsx:26-27 | the ids of the catalogue entries of one category, in catalogue order |
| Checklist.SectionIds | views/CollaboratorChecklist.tsx:26-34 | a section's ids: the category filter followed by the id map over the catalogue |
| Checklist.SectionIdsAre | views/CollaboratorChecklist.tsx:26-27 | the opening section is ids 1..15 and the closing section ids 16..20, in ascending order |
| Checklist.SectionFacts | views/CollaboratorChecklist.tsx:33-34 | a section's ids are non-empty, free of duplicates and all catalogue ids |
| Checklist.Toggled | views/CollaboratorChecklist.tsx:20-24 | a checked id becomes unchecked and an unchecked one is appended at the end; other ids keep membership and, with the toggled id erased, the list is unchanged; no duplicate and no foreign id is introduced |
| Checklist.ToggleTwiceRestores | views/CollaboratorChecklist.tsx:20-24 | toggling an unchecked item twice gives back exactly the original list |
| Checklist.SectionToggled | views/CollaboratorChecklist.tsx:32-45 | with the whole section checked, exactly its ids are removed; otherwise the result ends with the section ids in catalogue order and the section is then all selected; in both cases the ids outside the section are untouched and in order, and no duplicate or foreign id is introduced |
| Checklist.AllSelected | views/CollaboratorChecklist.tsx:29-30 | every id of the section is in the checked list |
| Checklist.AllSelectedRange | views/CollaboratorChecklist.tsx:29-30 | the opening section is all selected exactly when items 1..15 are checked, the closing one exactly when items 16..20 are |
| Checklist.SectionToggleTwiceRestores | views/CollaboratorChecklist.tsx:37-43 | pressing a section button twice, starting with none of that section checked, gives back exactly the original list |
| Checklist.PartlyCheckedSectionNotRestored | views/CollaboratorChecklist.tsx:37-43 | with only a section's first item checked, one press selects the whole section and a second press leaves nothing checked, so the first item is lost |
| Checklist.FullSectionNotLastReordered | views/CollaboratorChecklist.tsx:37-43 | with a whole section checked followed by another id, two presses leave that id in front of the section, not behind it |
| Checklist.FullSectionClears | views/CollaboratorChecklist.tsx:37-38 | with exactly a section's items checked the section is all selected, and its button leaves nothing checked |
| Checklist.FullSectionAtEndRestores | views/CollaboratorChecklist.tsx:37-43 | with the whole section checked and its ids ending the list in catalogue order, one press drops exactly the section and a second press restores the original list |
| Checklist.OpeningSectionScenario | views/CollaboratorChecklist.tsx:29-38 | with items 1..15 checked the opening section is all selected, and its button unchecks all of them |
| Checklist.Progress | views/CollaboratorChecklist.tsx:47 | the checked count as a percentage of the 20 items; the quotient is always whole, so the rounding changes nothing |
| Checklist.ProgressBounds | views/CollaboratorChecklist.tsx:47 | for a duplicate-free list of catalogue ids the progress lies in 0..100 and is 100 exactly when every item is checked |
| Checklist.FullIffAllChecked | views/CollaboratorChecklist.tsx:64 | a duplicate-free list of catalogue ids has at most 20 entries, and exactly 20 when it holds every catalogue id |
| Checklist.Authenticates | views/CollaboratorChecklist.tsx:57 | the typed text equals the stored password, or the password field is undefined |
| Checklist.AuthenticationCases | views/CollaboratorChecklist.tsx:57 | an undefined password lets any text through, a `null` one lets none through, a stored one exactly itself |
| Checklist.NewSubmission | views/CollaboratorChecklist.tsx:58-66 | the record carries the session's user id, name, checked list and notes plus the given id and timestamp, no snake_case fields, and its full-complete flag is true exactly when every catalogue item is checked |
| Checklist.Session.constructor | views/CollaboratorChecklist.tsx:10-18 | a session starts with nothing checked, no notes, not submitted, the prompt closed, an empty password and no error |
| Checklist.Session.ToggleItem | views/CollaboratorChecklist.tsx:20-24 | the checked list becomes its toggled form and stays duplicate-free, and stays within the catalogue when the id is a catalogue id |
| Checklist.Session.ToggleAllSection | views/CollaboratorChecklist.tsx:32-45 | the checked list becomes its section-toggled form, stays duplicate-free and within the catalogue |
| Checklist.Session.EditNotes | views/CollaboratorChecklist.tsx:185 | the notes become the typed text |
| Checklist.Session.TypePassword | views/CollaboratorChecklist.tsx:221 | typing sets the password buffer and clears the error |
| Checklist.Session.OpenAuth | views/CollaboratorChecklist.tsx:49-53 | with nothing checked (button disabled) nothing changes; otherwise the prompt opens with an empty password and no error; checked list, notes and submitted flag are untouched |
| Checklist.Session.CancelAuth | views/CollaboratorChecklist.tsx:229 | cancelling only hides the prompt |
| Checklist.Session.FinalSubmit | views/CollaboratorChecklist.tsx:55-73 | a record is handed on exactly when the typed password equals the stored one or the password field is undefined (a `null` password never passes); on success it is the session's record, the session is submitted and the prompt closes; on failure only the error message is set; checked list and notes never change |
| Checklist.Session.NewChecklist | views/CollaboratorChecklist.tsx:86 | starting a new checklist clears the checked list, the notes and the submitted flag |
| Dashboard.Truthy | views/AdminDashboard.tsx:26 | an optional text counts as present for `||` exactly when it is there and not empty |
| Dashboard.Normalize | views/AdminDashboard.tsx:24-29 | `userName` is a non-empty `user_name`, else `userName`; `isFullComplete` is a present `is_full_complete` (even `false`), else `isFullComplete`, with no default; `completedItems` is `completed_items`, else `completedItems`, else empty; every other field is copied |
| Dashboard.NormalizeIdempotent | views/AdminDashboard.tsx:24-29 | normalising twice is normalising once |
| Dashboard.NormalizeLocalRecord | views/AdminDashboard.tsx:24-29 | a record built on the checklist screen comes out unchanged |
| Dashboard.NormalizeAll | views/AdminDashboard.tsx:23-30 | the list keeps its length and order, each entry normalised in place |
| Dashboard.NormalizeAllIdempotent | views/AdminDashboard.tsx:23-30 | normalising the list twice is normalising it once |
| Dashboard.CountFull | views/AdminDashboard.tsx:44 | the count of records flagged full-complete is at most the total, equals it exactly when all are flagged, and is zero exactly when none is |
| Dashboard.ItemCount | views/AdminDashboard.tsx:45 | a record's item count, 0 when its list is missing |
| Dashboard.ItemSum | views/AdminDashboard.tsx:45 | the sum of the records' item counts that the reduce computes |
| Dashboard.ComputeStats | views/AdminDashboard.tsx:42-48 | the total is the list length, the full-complete count is at most the total, and an empty list gives all zeros |
| Dashboard.AverageTenths | views/AdminDashboard.tsx:45 | the average is 0 with no records, otherwise the item sum over the total rounded to the nearest tenth (ties up) |
| Dashboard.CountOn | views/AdminDashboard.tsx:55 | a day's count never exceeds the number of records |
| Dashboard.Split | views/AdminDashboard.tsx:56 | splitting yields at least one piece and no piece holds the separator |
| Dashboard.Join | views/AdminDashboard.tsx:56 | the pieces joined with the separator between neighbours; `SplitJoin` proves it undoes `Split` |
| Dashboard.SplitJoin | views/AdminDashboard.tsx:56 | joining the pieces of a split with the same separator gives back the string |
| Dashboard.SplitAtFirst | views/AdminDashboard.tsx:56 | the text before the first separator is the first piece |
| Dashboard.DayLabel | views/AdminDashboard.tsx:56 | split at `-`, reverse, keep the first two pieces, reverse again and join with `/` |
| Dashboard.DayLabelOfIsoDay | views/AdminDashboard.tsx:56 | the label of a `YYYY-MM-DD` day is `MM/DD` |
| Dashboard.BarsFor | views/AdminDashboard.tsx:51-56 | one bar per day, labelled with the day and counting the records whose date starts with it |
| Dashboard.ChartData | views/AdminDashboard.tsx:50-59 | one bar per day, in reverse order of the days: bar k is labelled with and counts the day 6-k days from today |
| Dashboard.ChartEndsToday | views/AdminDashboard.tsx:50-57 | the first bar is the day six days ago and the last bar is today |
| Dashboard.AtMostOneMatch | views/AdminDashboard.tsx:55 | a date starts with at most one of several distinct days of the same length |
| Dashboard.ChartBound | views/AdminDashboard.tsx:51-57 | over seven distinct calendar days the bars together never exceed the number of records |
| Dashboard.EmptyDashboard | views/AdminDashboard.tsx:42-59 | with no records the total, the full-complete count, the average and every bar are zero |
| Dashboard.DashboardStats | views/AdminDashboard.tsx:42-48 | the figures shown are computed over the normalised list: the total is the list length and the complete count is at most the total |
| Dashboard.StoreRowStats | views/AdminDashboard.tsx:42-48 | over rows delivered by the store, a record counts as complete exactly when its `is_full_complete` column is true, and the item total adds up the `completed_items` columns |
| Dashboard.CountOnNormalized | views/AdminDashboard.tsx:55 | the normaliser keeps dates, so a day's count is the same over the normalised list |
| Dashboard.BarsIgnoreNormalizing | views/AdminDashboard.tsx:51-56 | the bars over the normalised list are the bars over the list itself |
| Dashboard.ChartIgnoresNormalizing | views/AdminDashboard.tsx:50-59 | the chart over the normalised list is the chart over the list itself |
| Dashboard.DashboardChart | views/AdminDashboard.tsx:50-59 | the chart shown, computed over the normalised list, equals the chart over the raw list |
| Dashboard.Collaborators | views/AdminDashboard.tsx:152 | the roster shown holds exactly the users who are not administrators |
| Dashboard.NewCollaborator | views/AdminDashboard.tsx:63-71 | an account is created exactly when name, email and password are all non-empty, as an active collaborator carrying those three values and the given id |
| Dashboard.NewCollaboratorForm.constructor | views/AdminDashboard.tsx:19-21 | the form starts with three empty fields |
| Dashboard.NewCollaboratorForm.Submit | views/AdminDashboard.tsx:61-76 | the account handed on is the validated one; with a field empty nothing changes, otherwise the three fields are cleared |
| Login.FindUser | views/Login.tsx:14 | nothing is found exactly when no user has the id; a found user is in the list and has the id |
| Login.FindUserFirst | views/Login.tsx:14 | the user found is the first one carrying the id |
| Login.Enter | views/Login.tsx:13-16 | with nothing selected nothing happens; a user handed on has the selected id; nothing happens only when no user has it |
| Login.SelectionAloneLogsIn | views/Login.tsx:13-16 | selecting a user's id logs in as that user, whatever the password |
| App.ToRow | App.tsx:98-104 | the row carries `user_id`, `user_name`, `completed_items`, `is_full_complete` and `notes` from the camelCase fields, and no id or date |
| App.FromStore | types.ts:22-34 | a row from the store has only the snake_case fields, with the store's id and timestamp |
| App.RowRoundTrip | App.tsx:98-104 | a record with a non-empty name comes back from the store through the normaliser with the same name, items, flag, notes and user id |
| App.EmptyNameIsLost | views/AdminDashboard.tsx:26 | a record sent with an empty name comes back with no name |
| App.UsersWithout | App.tsx:91 | exactly the users without the id remain |
| App.UsersWithoutAppend | App.tsx:91 | removal acts piecewise on a concatenation, so the remaining users keep their order |
| App.UsersWithoutAbsent | App.tsx:91 | removing an id nobody has leaves the roster as it was |
| App.FeedKeepsNewestFirst | App.tsx:51 | a feed row at least as recent as the newest keeps the list newest first |
| App.FeedOlderRowBreaksOrder | App.tsx:51 | a feed row older than the newest leaves the list out of order |
| App.Store.constructor | App.tsx:9-13 | the shell starts loading, with nobody logged in and empty lists |
| App.Store.FetchData | App.tsx:16-42 | loading ends; a failed user fetch leaves both lists and skips the submissions; otherwise the users, and then the submissions if that fetch succeeds, are replaced by what the store returns |
| App.Store.OnFeedInsert | App.tsx:50-52 | the reported row is put in front: one longer, the rest unchanged, no duplicate check |
| App.Store.HandleLogin | App.tsx:60-62 | the given user becomes the current user |
| App.Store.HandleLogout | App.tsx:64-66 | nobody is logged in afterwards |
| App.Store.AddUser | App.tsx:68-79 | on failure the roster is unchanged; on success the stored row is appended at the end |
| App.Store.RemoveUser | App.tsx:81-92 | on failure the roster is unchanged; on success exactly the users with the id are removed, the others kept in order |
| App.Store.AddSubmission | App.tsx:94-110 | the mapped row is sent, a failure is only reported, and the local state is never changed |
| App.Store.CurrentView | App.tsx:112-163 | spinner while loading, login with nobody logged in, dashboard for an administrator, checklist for any other role |
| App.SubmitThenFeed | App.tsx:94-110 | a submission enters the local list only through the feed, as exactly one new entry in front |

## Left out

- The AI summary (`geminiService.ts` and the dashboard's insights text): an external text generator; the model has no use for its output.
- The database queries, the live-feed subscription and its teardown, `alert` and `console.error`: each remote call is replaced by its outcome, passed as a parameter.
- The order of asynchronous completions: handlers run one at a time. `toggleAllSection` reads `allOpeningSelected` / `allClosingSelected` from the last render in its body and passes a plain updater; with no render pending between presses that value always agrees with the list the updater receives, which is how the model computes it.
- Sorting on initial load: the store orders users by name and submissions newest first; `App.Store.FetchData` takes the rows in the order given.
- A successful remote call that returns no data (`if (data)`, `if (userData)`, `if (subData)`), or an empty array in `addUser` (which would append `undefined`): outcomes carry data on success.
- `new Date()`, `toISOString`, `toLocaleDateString`, `toLocaleTimeString` and `crypto.randomUUID`: timestamps, the seven chart days and ids are parameters. `Dashboard.ChartBound` assumes the seven days are distinct; the source steps back with local `setDate` but takes the day from the UTC `toISOString`, so near a daylight-saving change two buckets can get the same day, and that day is then counted twice.
- Dashboard.AverageTenths: rounds the exact quotient to tenths; the source rounds the floating-point quotient with `toFixed(1)`, which can differ at a tie, and shows it as text.
- Checklist.Progress: computes the exact quotient `|checked| * 100 / 20`; the source rounds a floating-point product with `Math.round`, which gives the same integer because the quotient is always a whole number.
- The handlers of the checklist after a submission: the screen then shows only the "new checklist" button, and the model's session does not guard the other handlers against being called.
- Rendering, styling, the chart drawing, tabs, the loading spinner and the history table's date formatting.

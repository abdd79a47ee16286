/** The collaborator's checklist screen (views/CollaboratorChecklist.tsx):
    the pure list updaters behind its setters, the derived values, and the
    session state machine as a class whose methods are the screen's handlers. */
module Checklist {
  import opened Wrappers
  import opened Types
  import opened Lists

  /** The integers lo..hi in ascending order. */
  function Span(lo: int, hi: int): (r: seq<int>)
    ensures |r| == if lo > hi then 0 else hi - lo + 1
    ensures forall k :: 0 <= k < |r| ==> r[k] == lo + k
    decreases hi - lo
  {
    if lo > hi then [] else [lo] + Span(lo + 1, hi)
  }

  /** `items.filter(i => i.category === c).map(i => i.id)`. */
  function IdsIn(items: seq<ChecklistItem>, c: Category): seq<int> {
    if items == [] then []
    else (if items[0].category == c then [items[0].id] else []) + IdsIn(items[1..], c)
  }

  /** The ids of one section, in catalogue order. */
  function SectionIds(c: Category): seq<int> {
    IdsIn(CHECKLIST_ITEMS, c)
  }

  lemma {:induction false} SectionIdsSuffix(k: nat)
    requires k <= 20
    ensures IdsIn(CHECKLIST_ITEMS[k..], Abertura) == Span(k + 1, 15)
    ensures IdsIn(CHECKLIST_ITEMS[k..], Fechamento) == Span(if k < 15 then 16 else k + 1, 20)
    decreases 20 - k
  {
    CatalogueShape();
    if k < 20 {
      SectionIdsSuffix(k + 1);
      assert CHECKLIST_ITEMS[k..][1..] == CHECKLIST_ITEMS[k + 1..];
    }
  }

  /** The opening section is ids 1..15 and the closing section ids 16..20,
      each in ascending order. */
  lemma SectionIdsAre()
    ensures SectionIds(Abertura) == Span(1, 15)
    ensures SectionIds(Fechamento) == Span(16, 20)
  {
    var start: nat :| start == 0;
    SectionIdsSuffix(start);
    assert CHECKLIST_ITEMS[start..] == CHECKLIST_ITEMS;
  }

  /** Every id of a section is a catalogue id, none repeats, and a section is never empty. */
  lemma SectionFacts(c: Category)
    ensures |SectionIds(c)| > 0
    ensures NoDup(SectionIds(c))
    ensures forall id :: id in SectionIds(c) ==> IsItemId(id)
  {
    SectionIdsAre();
    forall id | id in SectionIds(c) ensures IsItemId(id) {
      ItemIdRange(id);
    }
  }

  /** Every id in the list is a catalogue id. */
  predicate OnlyItemIds(ids: seq<int>) {
    forall id :: id in ids ==> IsItemId(id)
  }

  /** The updater of `toggleItem`: a checked id is unchecked (every copy of it
      removed), an unchecked one is appended at the end. */
  function Toggled(prev: seq<int>, id: int): (next: seq<int>)
    ensures id in next <==> id !in prev
    ensures id !in prev ==> next == prev + [id]
    ensures forall y :: y != id ==> (y in next <==> y in prev)
    ensures RemoveAll(next, id) == RemoveAll(prev, id)
    ensures NoDup(prev) ==> NoDup(next)
    ensures OnlyItemIds(prev) && IsItemId(id) ==> OnlyItemIds(next)
  {
    if id in prev then
      RemoveAllIdempotent(prev, id);
      RemoveAllNoDupIf(prev, id);
      RemoveAll(prev, id)
    else
      RemoveAllAppend(prev, [id], id);
      RemoveAllAbsent(prev, id);
      NoDupSnoc(prev, id);
      prev + [id]
  }

  lemma RemoveAllIdempotent(s: seq<int>, x: int)
    ensures RemoveAll(RemoveAll(s, x), x) == RemoveAll(s, x)
  {
    RemoveAllAbsent(RemoveAll(s, x), x);
  }

  lemma RemoveAllNoDupIf(s: seq<int>, x: int)
    ensures NoDup(s) ==> NoDup(RemoveAll(s, x))
  {
    if NoDup(s) {
      RemoveAllNoDup(s, x);
    }
  }

  lemma NoDupSnoc(s: seq<int>, x: int)
    requires x !in s
    ensures NoDup(s) ==> NoDup(s + [x])
  {
    if NoDup(s) {
      NoDupCons(s, [x]);
    }
  }

  /** Toggling an unchecked item twice gives back exactly the list it started from. */
  lemma ToggleTwiceRestores(prev: seq<int>, id: int)
    requires id !in prev
    ensures Toggled(Toggled(prev, id), id) == prev
  {
    RemoveAllAppend(prev, [id], id);
    RemoveAllAbsent(prev, id);
  }

  /** `allOpeningSelected` / `allClosingSelected`: every id of the section is checked. */
  predicate AllSelected(checked: seq<int>, c: Category) {
    forall id :: id in SectionIds(c) ==> id in checked
  }

  /** One unchecked id of a section is enough for the section not to be all selected. */
  lemma NotAllSelected(checked: seq<int>, c: Category, x: int)
    requires x in SectionIds(c) && x !in checked
    ensures !AllSelected(checked, c)
  {
  }

  /** The updater of `toggleAllSection`: when the whole section is checked it
      is unchecked; otherwise the section's ids are dropped and then appended
      in catalogue order after the other ids. */
  function SectionToggled(prev: seq<int>, c: Category): (next: seq<int>)
    ensures Without(next, SectionIds(c)) == Without(prev, SectionIds(c))
    ensures AllSelected(prev, c) ==> forall id :: id in SectionIds(c) ==> id !in next
    ensures AllSelected(prev, c) ==> forall y :: y in next <==> y in prev && y !in SectionIds(c)
    ensures !AllSelected(prev, c) ==> AllSelected(next, c)
    ensures !AllSelected(prev, c) ==>
              |next| >= |SectionIds(c)| && next[|next| - |SectionIds(c)|..] == SectionIds(c) &&
              forall y :: y !in SectionIds(c) ==> (y in next <==> y in prev)
    ensures NoDup(prev) ==> NoDup(next)
    ensures OnlyItemIds(prev) ==> OnlyItemIds(next)
  {
    var sectionIds := SectionIds(c);
    var otherIds := Without(prev, sectionIds);
    SectionFacts(c);
    WithoutIdempotent(prev, sectionIds);
    WithoutNoDupIf(prev, sectionIds);
    if AllSelected(prev, c) then
      otherIds
    else
      WithoutAppend(otherIds, sectionIds, sectionIds);
      WithoutCovered(sectionIds, sectionIds);
      NoDupAppendSection(otherIds, sectionIds);
      otherIds + sectionIds
  }

  lemma WithoutIdempotent(s: seq<int>, xs: seq<int>)
    ensures Without(Without(s, xs), xs) == Without(s, xs)
  {
    WithoutDisjoint(Without(s, xs), xs);
  }

  lemma WithoutNoDupIf(s: seq<int>, xs: seq<int>)
    ensures NoDup(s) ==> NoDup(Without(s, xs))
  {
    if NoDup(s) {
      WithoutNoDup(s, xs);
    }
  }

  lemma NoDupAppendSection(others: seq<int>, section: seq<int>)
    requires NoDup(section)
    requires forall i :: 0 <= i < |others| ==> others[i] !in section
    ensures NoDup(others) ==> NoDup(others + section)
  {
    if NoDup(others) {
      NoDupCons(others, section);
    }
  }

  /** Selecting a section that has nothing checked and then pressing the same
      button again gives back exactly the list it started from. */
  lemma SectionToggleTwiceRestores(prev: seq<int>, c: Category)
    requires forall i :: 0 <= i < |prev| ==> prev[i] !in SectionIds(c)
    ensures SectionToggled(SectionToggled(prev, c), c) == prev
  {
    SectionFacts(c);
    var s := SectionIds(c);
    NotAllSelected(prev, c, s[0]);
    WithoutDisjoint(prev, s);
  }

  /** Each section has at least two items. */
  lemma SectionHasTwo(c: Category)
    ensures |SectionIds(c)| >= 2
  {
    SectionIdsAre();
  }

  /** With exactly a section's items checked, its button unchecks all of them. */
  lemma FullSectionClears(c: Category)
    ensures AllSelected(SectionIds(c), c)
    ensures SectionToggled(SectionIds(c), c) == []
  {
    WithoutCovered(SectionIds(c), SectionIds(c));
  }

  /** A fully checked section whose ids end the list in catalogue order is
      restored by two presses: the first drops it, the second appends it again. */
  lemma FullSectionAtEndRestores(others: seq<int>, c: Category)
    requires forall i :: 0 <= i < |others| ==> others[i] !in SectionIds(c)
    ensures SectionToggled(others + SectionIds(c), c) == others
    ensures SectionToggled(SectionToggled(others + SectionIds(c), c), c) == others + SectionIds(c)
  {
    SectionFacts(c);
    var s := SectionIds(c);
    var prev := others + s;
    assert AllSelected(prev, c);
    WithoutAppend(others, s, s);
    WithoutDisjoint(others, s);
    WithoutCovered(s, s);
    assert others + [] == others;
    NotAllSelected(others, c, s[0]);
  }

  /** Checking items 1..15 one by one and then pressing the opening
      section's button unchecks all of them. */
  lemma OpeningSectionScenario()
    ensures AllSelected(Span(1, 15), Abertura)
    ensures SectionToggled(Span(1, 15), Abertura) == []
  {
    SectionIdsAre();
    FullSectionClears(Abertura);
  }

  /** Two presses do not restore a partly checked section: with only the
      section's first item checked, the first press selects the whole section
      and the second clears it, that first item included. */
  lemma PartlyCheckedSectionNotRestored(c: Category)
    ensures |SectionIds(c)| >= 2
    ensures SectionToggled([SectionIds(c)[0]], c) == SectionIds(c)
    ensures SectionToggled(SectionToggled([SectionIds(c)[0]], c), c) == []
  {
    SectionHasTwo(c);
    SectionFacts(c);
    var s := SectionIds(c);
    var prev := [s[0]];
    NotAllSelected(prev, c, s[1]);
    WithoutCovered(prev, s);
    assert [] + s == s;
    FullSectionClears(c);
  }

  /** Two presses do not restore the order of a fully checked section that is
      not at the end of the list: an id checked after the section ends up in
      front of it. */
  lemma FullSectionNotLastReordered(c: Category, other: int)
    requires other !in SectionIds(c)
    ensures SectionToggled(SectionIds(c) + [other], c) == [other]
    ensures SectionToggled([other], c) == [other] + SectionIds(c)
    ensures SectionToggled(SectionToggled(SectionIds(c) + [other], c), c) != SectionIds(c) + [other]
  {
    SectionFacts(c);
    var s := SectionIds(c);
    var prev := s + [other];
    assert AllSelected(prev, c);
    WithoutAppend(s, [other], s);
    WithoutCovered(s, s);
    WithoutDisjoint([other], s);
    NotAllSelected([other], c, s[0]);
    assert ([other] + s)[0] == other && prev[0] == s[0];
  }

  /** The all-selected test of a section is a range test: items 1..15 for the
      opening section, items 16..20 for the closing one. */
  lemma AllSelectedRange(checked: seq<int>)
    ensures AllSelected(checked, Abertura) <==> forall id :: 1 <= id <= 15 ==> id in checked
    ensures AllSelected(checked, Fechamento) <==> forall id :: 16 <= id <= 20 ==> id in checked
  {
    SectionIdsAre();
    SpanMembers(1, 15);
    SpanMembers(16, 20);
  }

  /** The values of `Span(lo, hi)` are exactly lo..hi. */
  lemma SpanMembers(lo: int, hi: int)
    ensures forall id :: id in Span(lo, hi) <==> lo <= id <= hi
  {
    forall id | lo <= id <= hi ensures id in Span(lo, hi) {
      assert Span(lo, hi)[id - lo] == id;
    }
  }

  /** `progress`: the checked count as a percentage of the catalogue size. With
      20 items the quotient is exact, so rounding changes nothing. */
  function Progress(checked: seq<int>): (p: int)
    ensures p * |CHECKLIST_ITEMS| == |checked| * 100
  {
    |checked| * 100 / |CHECKLIST_ITEMS|
  }

  /** For a duplicate-free list of catalogue ids the progress lies in 0..100
      and reaches 100 exactly when every catalogue item is checked. */
  lemma ProgressBounds(checked: seq<int>)
    requires NoDup(checked) && OnlyItemIds(checked)
    ensures 0 <= Progress(checked) <= 100
    ensures Progress(checked) == 100 <==> forall id :: IsItemId(id) ==> id in checked
  {
    CatalogueShape();
    FullIffAllChecked(checked);
  }

  /** A duplicate-free list of catalogue ids has at most 20 entries, and has
      exactly 20 when it holds every catalogue id. */
  lemma FullIffAllChecked(checked: seq<int>)
    requires NoDup(checked) && OnlyItemIds(checked)
    ensures |checked| <= |CHECKLIST_ITEMS|
    ensures |checked| == |CHECKLIST_ITEMS| <==> forall id :: IsItemId(id) ==> id in checked
  {
    CatalogueShape();
    UpToSize(20);
    forall y | y in checked ensures y in UpTo(20) {
      ItemIdRange(y);
    }
    NoDupBound(checked, UpTo(20));
    if forall id :: IsItemId(id) ==> id in checked {
      forall y | y in UpTo(20) ensures y in checked {
        ItemIdRange(y);
      }
      CoverBound(checked, UpTo(20));
    }
    if |checked| == 20 {
      forall id | IsItemId(id) ensures id in checked {
        if id !in checked {
          ItemIdRange(id);
          forall y | y in checked ensures y in UpTo(20) - {id} {
            ItemIdRange(y);
          }
          NoDupBound(checked, UpTo(20) - {id});
          assert false;
        }
      }
    }
  }

  lemma FullIffAllCheckedIf(checked: seq<int>)
    ensures NoDup(checked) && OnlyItemIds(checked) ==>
              (|checked| == |CHECKLIST_ITEMS| <==> forall id :: IsItemId(id) ==> id in checked)
  {
    if NoDup(checked) && OnlyItemIds(checked) {
      FullIffAllChecked(checked);
    }
  }

  /** The submission check `password === user.password || user.password === undefined`:
      the typed text equals the stored password, or the field is undefined. A
      `null` password equals no typed text and is not `undefined`. */
  predicate Authenticates(typed: string, u: User) {
    u.password == Stored(typed) || u.password == Undefined
  }

  /** The three cases of the submission check: an undefined password lets any
      text through, a null one none, a stored one exactly itself. */
  lemma AuthenticationCases(typed: string, u: User)
    ensures u.password.Undefined? ==> Authenticates(typed, u)
    ensures u.password.Null? ==> !Authenticates(typed, u)
    ensures u.password.Stored? ==> (Authenticates(typed, u) <==> typed == u.password.text)
  {
  }

  /** The message shown after a wrong password. */
  const WRONG_PASSWORD: string := "Senha incorreta. Por favor, tente novamente."

  /** The record that a successful submission hands to `onComplete`; the id
      and the timestamp are supplied by the caller. */
  function NewSubmission(u: User, checked: seq<int>, notes: string, id: string, date: string): (s: Submission)
    ensures s.id == id && s.date == date
    ensures s.userId == Some(u.id) && s.userName == Some(u.name) && s.notes == Some(notes)
    ensures s.completedItems == Some(checked)
    ensures s.user_id.None? && s.user_name.None? && s.completed_items.None? && s.is_full_complete.None?
    ensures s.isFullComplete.Some?
    ensures NoDup(checked) && OnlyItemIds(checked) ==>
              (s.isFullComplete.value <==> forall k :: IsItemId(k) ==> k in checked)
  {
    FullIffAllCheckedIf(checked);
    Submission(id, Some(u.id), None, Some(u.name), None, date,
               Some(checked), None, Some(|checked| == |CHECKLIST_ITEMS|), None, Some(notes))
  }

  /** One checklist session of one logged-in collaborator. */
  class Session {
    const user: User
    var checkedIds: seq<int>
    var submitted: bool
    var notes: string
    var showAuthModal: bool
    var password: string
    var error: string

    /** The checked list never holds an id twice. */
    ghost predicate Valid()
      reads this
    {
      NoDup(checkedIds)
    }

    constructor (u: User)
      ensures Valid()
      ensures user == u && checkedIds == [] && !submitted && notes == ""
      ensures !showAuthModal && password == "" && error == ""
    {
      user := u;
      checkedIds := [];
      submitted := false;
      notes := "";
      showAuthModal := false;
      password := "";
      error := "";
    }

    /** A checkbox of one item changed. */
    method ToggleItem(id: int)
      requires Valid()
      modifies this`checkedIds
      ensures Valid()
      ensures checkedIds == Toggled(old(checkedIds), id)
      ensures old(OnlyItemIds(checkedIds)) && IsItemId(id) ==> OnlyItemIds(checkedIds)
    {
      checkedIds := Toggled(checkedIds, id);
    }

    /** The select-all / deselect-all button of a section. */
    method ToggleAllSection(c: Category)
      requires Valid()
      modifies this`checkedIds
      ensures Valid()
      ensures checkedIds == SectionToggled(old(checkedIds), c)
      ensures old(OnlyItemIds(checkedIds)) ==> OnlyItemIds(checkedIds)
    {
      checkedIds := SectionToggled(checkedIds, c);
    }

    /** The notes text area changed. */
    method EditNotes(text: string)
      modifies this`notes
      ensures notes == text
    {
      notes := text;
    }

    /** The password field changed; a shown error is cleared. */
    method TypePassword(text: string)
      modifies this`password, this`error
      ensures password == text && error == ""
    {
      password := text;
      error := "";
    }

    /** The submit button. It is disabled while nothing is checked, so a click
        then does nothing; otherwise it opens the password prompt with an empty
        field and no error. The checked list and the notes are not touched. */
    method OpenAuth()
      modifies this`showAuthModal, this`error, this`password
      ensures checkedIds == old(checkedIds) && notes == old(notes) && submitted == old(submitted)
      ensures old(checkedIds) == [] ==> unchanged(this)
      ensures old(checkedIds) != [] ==> showAuthModal && error == "" && password == ""
    {
      if checkedIds != [] {
        showAuthModal := true;
        error := "";
        password := "";
      }
    }

    /** The cancel button of the password prompt: it only hides the prompt. */
    method CancelAuth()
      modifies this`showAuthModal
      ensures !showAuthModal
      ensures checkedIds == old(checkedIds) && notes == old(notes) && submitted == old(submitted)
    {
      showAuthModal := false;
    }

    /** The confirm button of the password prompt. On success the record is
        handed on (returned here), the session is marked submitted and the
        prompt closes; on failure only the error message is set, so no
        progress is lost. */
    method FinalSubmit(newId: string, now: string) returns (sub: Option<Submission>)
      requires Valid()
      modifies this`submitted, this`showAuthModal, this`error
      ensures Valid()
      ensures checkedIds == old(checkedIds) && notes == old(notes) && password == old(password)
      ensures sub.Some? <==> Authenticates(password, user)
      ensures sub.Some? ==>
                sub.value == NewSubmission(user, checkedIds, notes, newId, now) &&
                submitted && !showAuthModal && error == old(error)
      ensures sub.None? ==>
                error == WRONG_PASSWORD &&
                submitted == old(submitted) && showAuthModal == old(showAuthModal)
    {
      if Authenticates(password, user) {
        sub := Some(NewSubmission(user, checkedIds, notes, newId, now));
        submitted := true;
        showAuthModal := false;
      } else {
        sub := None;
        error := WRONG_PASSWORD;
      }
    }

    /** The "new checklist" button shown after a submission. */
    method NewChecklist()
      modifies this`submitted, this`checkedIds, this`notes
      ensures Valid()
      ensures !submitted && checkedIds == [] && notes == ""
    {
      submitted := false;
      checkedIds := [];
      notes := "";
    }
  }
}

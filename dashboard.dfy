/** The supervisor's dashboard (views/AdminDashboard.tsx): the normaliser that
    reconciles the two field-naming conventions, the summary figures, the
    seven-day activity chart, the collaborator roster filter and the
    new-collaborator form. */
module Dashboard {
  import opened Wrappers
  import opened Types
  import opened Lists

  /** JavaScript truthiness of an optional string: present and not empty. */
  predicate Truthy(s: Option<string>) {
    s.Some? && s.value != ""
  }

  /** One entry of `normalizedSubmissions`. `userName` follows `||` (an empty
      `user_name` falls back), `isFullComplete` follows `??` (an explicit
      `false` wins, and nothing supplies a default), and `completedItems`
      falls back to the camelCase list and then to the empty list. */
  function Normalize(s: Submission): (n: Submission)
    ensures Truthy(s.user_name) ==> n.userName == s.user_name
    ensures !Truthy(s.user_name) ==> n.userName == s.userName
    ensures s.is_full_complete.Some? ==> n.isFullComplete == s.is_full_complete
    ensures s.is_full_complete.None? ==> n.isFullComplete == s.isFullComplete
    ensures s.completed_items.Some? ==> n.completedItems == s.completed_items
    ensures s.completed_items.None? && s.completedItems.Some? ==> n.completedItems == s.completedItems
    ensures s.completed_items.None? && s.completedItems.None? ==> n.completedItems == Some([])
    ensures n.(userName := s.userName, isFullComplete := s.isFullComplete,
               completedItems := s.completedItems) == s
  {
    s.(userName := if Truthy(s.user_name) then s.user_name else s.userName,
       isFullComplete := if s.is_full_complete.Some? then s.is_full_complete else s.isFullComplete,
       completedItems :=
         if s.completed_items.Some? then s.completed_items
         else if s.completedItems.Some? then s.completedItems
         else Some([]))
  }

  /** Normalising twice is normalising once. */
  lemma NormalizeIdempotent(s: Submission)
    ensures Normalize(Normalize(s)) == Normalize(s)
  {
  }

  /** A record built on the checklist screen (no snake_case fields, items
      present) comes out of the normaliser unchanged. */
  lemma NormalizeLocalRecord(s: Submission)
    requires s.user_name.None? && s.is_full_complete.None? && s.completed_items.None?
    requires s.completedItems.Some?
    ensures Normalize(s) == s
  {
  }

  /** `normalizedSubmissions`: every record normalised, length and order kept. */
  function NormalizeAll(subs: seq<Submission>): (r: seq<Submission>)
    ensures |r| == |subs|
    ensures forall i :: 0 <= i < |subs| ==> r[i] == Normalize(subs[i])
  {
    seq(|subs|, i requires 0 <= i < |subs| => Normalize(subs[i]))
  }

  /** Normalising a whole list twice is normalising it once. */
  lemma NormalizeAllIdempotent(subs: seq<Submission>)
    ensures NormalizeAll(NormalizeAll(subs)) == NormalizeAll(subs)
  {
    forall i | 0 <= i < |subs|
      ensures NormalizeAll(NormalizeAll(subs))[i] == NormalizeAll(subs)[i]
    {
      NormalizeIdempotent(subs[i]);
    }
  }

  // ---------------------------------------------------------------------------
  // Summary figures

  /** The summary figures. The average is kept as the item sum; its displayed
      form is `AverageTenths`. */
  datatype Stats = Stats(total: nat, fullyComplete: nat, itemSum: nat)

  /** `subs.filter(s => s.isFullComplete).length`: records whose flag is true. */
  function CountFull(subs: seq<Submission>): (n: nat)
    ensures n <= |subs|
    ensures n == |subs| <==> forall i :: 0 <= i < |subs| ==> subs[i].isFullComplete == Some(true)
    ensures n == 0 <==> forall i :: 0 <= i < |subs| ==> subs[i].isFullComplete != Some(true)
  {
    if subs == [] then 0
    else (if subs[0].isFullComplete == Some(true) then 1 else 0) + CountFull(subs[1..])
  }

  /** `s.completedItems?.length || 0`. */
  function ItemCount(s: Submission): nat {
    if s.completedItems.Some? then |s.completedItems.value| else 0
  }

  /** The sum that the dashboard's reduce computes. */
  function ItemSum(subs: seq<Submission>): nat {
    if subs == [] then 0 else ItemCount(subs[0]) + ItemSum(subs[1..])
  }

  /** `stats` over a list of records. */
  function ComputeStats(subs: seq<Submission>): (st: Stats)
    ensures st.total == |subs|
    ensures st.fullyComplete <= st.total
    ensures subs == [] ==> st == Stats(0, 0, 0)
  {
    Stats(|subs|, CountFull(subs), ItemSum(subs))
  }

  /** The average number of items per record in tenths, as `toFixed(1)`
      shows it: 0 for no records, otherwise the exact quotient rounded to
      the nearest tenth with ties going up. */
  function AverageTenths(st: Stats): (avg: nat)
    ensures st.total == 0 ==> avg == 0
    ensures st.total > 0 ==>
              20 * st.itemSum - st.total < 2 * avg * st.total <= 20 * st.itemSum + st.total
  {
    if st.total == 0 then 0
    else
      var num, den := 20 * st.itemSum + st.total, 2 * st.total;
      var q := num / den;
      assert num == den * q + num % den;
      assert 2 * q * st.total == den * q;
      q
  }

  // ---------------------------------------------------------------------------
  // The seven-day activity chart

  /** One bar of the chart: a `MM/DD` label and a count. */
  datatype Bar = Bar(name: string, value: nat)

  /** `subs.filter(s => s.date.startsWith(day)).length`. */
  function CountOn(subs: seq<Submission>, day: string): (n: nat)
    ensures n <= |subs|
  {
    if subs == [] then 0
    else (if day <= subs[0].date then 1 else 0) + CountOn(subs[1..], day)
  }

  /** `s.split(sep)`: the pieces between separators, at least one, none
      holding the separator. */
  function Split(s: string, sep: char): (parts: seq<string>)
    ensures |parts| >= 1
    ensures forall i :: 0 <= i < |parts| ==> sep !in parts[i]
  {
    if s == [] then [[]]
    else
      var rest := Split(s[1..], sep);
      if s[0] == sep then [[]] + rest else [[s[0]] + rest[0]] + rest[1..]
  }

  /** `parts.join(sep)`. */
  function Join(parts: seq<string>, sep: char): string {
    if |parts| == 0 then []
    else if |parts| == 1 then parts[0]
    else parts[0] + [sep] + Join(parts[1..], sep)
  }

  /** Splitting and joining again with the same separator gives back the string. */
  lemma {:induction false} SplitJoin(s: string, sep: char)
    ensures Join(Split(s, sep), sep) == s
  {
    if s != [] {
      var rest := Split(s[1..], sep);
      SplitJoin(s[1..], sep);
      if s[0] == sep {
        assert Split(s, sep) == [[]] + rest;
        assert ([[]] + rest)[1..] == rest;
        assert s == [sep] + s[1..];
      } else {
        var parts := [[s[0]] + rest[0]] + rest[1..];
        assert Split(s, sep) == parts;
        if |rest| == 1 {
          assert s == [s[0]] + s[1..];
        } else {
          assert parts[1..] == rest[1..];
          assert Join(rest, sep) == rest[0] + [sep] + Join(rest[1..], sep);
          assert s == [s[0]] + s[1..];
        }
      }
    }
  }

  /** A string without the separator splits into itself alone. */
  lemma {:induction false} SplitNoSeparator(s: string, sep: char)
    requires sep !in s
    ensures Split(s, sep) == [s]
  {
    if s != [] {
      SplitNoSeparator(s[1..], sep);
      assert s == [s[0]] + s[1..];
    }
  }

  /** The piece before the first separator comes off first. */
  lemma {:induction false} SplitAtFirst(a: string, sep: char, b: string)
    requires sep !in a
    ensures Split(a + [sep] + b, sep) == [a] + Split(b, sep)
  {
    var s := a + [sep] + b;
    if a == [] {
      assert s[1..] == b;
    } else {
      assert s[1..] == a[1..] + [sep] + b;
      SplitAtFirst(a[1..], sep, b);
      assert [a[0]] + a[1..] == a;
    }
  }

  /** `dateStr.split('-').reverse().slice(0,2).reverse().join('/')`. */
  function DayLabel(day: string): string {
    var pieces := Reverse(Split(day, '-'));
    Join(Reverse(pieces[..if |pieces| < 2 then |pieces| else 2]), '/')
  }

  predicate IsDigit(ch: char) {
    '0' <= ch <= '9'
  }

  /** A calendar day written `YYYY-MM-DD`. */
  predicate IsIsoDay(d: string) {
    |d| == 10 && d[4] == '-' && d[7] == '-' &&
    forall i :: 0 <= i < 10 && i != 4 && i != 7 ==> IsDigit(d[i])
  }

  /** The label of a `YYYY-MM-DD` day is `MM/DD`. */
  lemma DayLabelOfIsoDay(d: string)
    requires IsIsoDay(d)
    ensures DayLabel(d) == d[5..7] + "/" + d[8..10]
  {
    var y, m, dd := d[..4], d[5..7], d[8..10];
    assert '-' !in y by {
      forall i | 0 <= i < 4 ensures y[i] != '-' { assert IsDigit(d[i]); }
    }
    assert '-' !in m by {
      forall i | 0 <= i < 2 ensures m[i] != '-' { assert IsDigit(d[5 + i]); }
    }
    assert '-' !in dd by {
      forall i | 0 <= i < 2 ensures dd[i] != '-' { assert IsDigit(d[8 + i]); }
    }
    assert d == y + ['-'] + (m + ['-'] + dd);
    SplitAtFirst(y, '-', m + ['-'] + dd);
    SplitAtFirst(m, '-', dd);
    SplitNoSeparator(dd, '-');
    assert Split(d, '-') == [y, m, dd];
    LabelOfThreePieces(y, m, dd);
  }

  /** Three pieces are relabelled as the second, a slash and the third. */
  lemma LabelOfThreePieces(y: string, m: string, dd: string)
    ensures var pieces := Reverse([y, m, dd]);
            Join(Reverse(pieces[..2]), '/') == m + "/" + dd
  {
    var pieces := Reverse([y, m, dd]);
    assert pieces[..2] == [dd, m];
    var back := Reverse([dd, m]);
    assert back == [m, dd];
    assert Join(back, '/') == m + ['/'] + Join([dd], '/');
  }

  /** The bars for the given days, in the order of the days. */
  function BarsFor(subs: seq<Submission>, days: seq<string>): (bars: seq<Bar>)
    ensures |bars| == |days|
    ensures forall k :: 0 <= k < |days| ==> bars[k] == Bar(DayLabel(days[k]), CountOn(subs, days[k]))
  {
    if days == [] then []
    else [Bar(DayLabel(days[0]), CountOn(subs, days[0]))] + BarsFor(subs, days[1..])
  }

  /** `chartData`. `days[i]` is the calendar day `i` days before today, as
      the clock gives it; the bars run from the oldest day to today, each
      counting the records whose date starts with its day. */
  function ChartData(subs: seq<Submission>, days: seq<string>): (bars: seq<Bar>)
    requires |days| == 7
    ensures |bars| == |days|
    ensures forall k :: 0 <= k < |days| ==>
              bars[k] == Bar(DayLabel(days[|days| - 1 - k]), CountOn(subs, days[|days| - 1 - k]))
  {
    ReversedBars(subs, days);
    Reverse(BarsFor(subs, days))
  }

  /** The chart starts six days ago and ends with today. */
  lemma ChartEndsToday(subs: seq<Submission>, days: seq<string>)
    requires |days| == 7
    ensures ChartData(subs, days)[0] == Bar(DayLabel(days[6]), CountOn(subs, days[6]))
    ensures ChartData(subs, days)[6] == Bar(DayLabel(days[0]), CountOn(subs, days[0]))
  {
  }

  /** Bar `k` of the reversed bars belongs to the day `k` places from the end. */
  lemma ReversedBars(subs: seq<Submission>, days: seq<string>)
    ensures forall k :: 0 <= k < |days| ==>
              Reverse(BarsFor(subs, days))[k] == Bar(DayLabel(days[|days| - 1 - k]), CountOn(subs, days[|days| - 1 - k]))
  {
    var forward := BarsFor(subs, days);
    var back := Reverse(forward);
    forall k | 0 <= k < |days|
      ensures back[k] == Bar(DayLabel(days[|days| - 1 - k]), CountOn(subs, days[|days| - 1 - k]))
    {
      var j := |days| - 1 - k;
      assert back[k] == forward[j];
      assert forward[j] == Bar(DayLabel(days[j]), CountOn(subs, days[j]));
    }
  }

  /** The total height of some bars. */
  function SumValues(bars: seq<Bar>): nat {
    if bars == [] then 0 else bars[0].value + SumValues(bars[1..])
  }

  lemma {:induction false} SumValuesAppend(a: seq<Bar>, b: seq<Bar>)
    ensures SumValues(a + b) == SumValues(a) + SumValues(b)
  {
    if a == [] {
      assert a + b == b;
    } else {
      assert (a + b)[1..] == a[1..] + b;
      SumValuesAppend(a[1..], b);
    }
  }

  lemma {:induction false} SumValuesReverse(bars: seq<Bar>)
    ensures SumValues(Reverse(bars)) == SumValues(bars)
  {
    if bars != [] {
      SumValuesReverse(bars[1..]);
      SumValuesAppend(Reverse(bars[1..]), [bars[0]]);
    }
  }

  /** How many of the days prefix the date of `s`. */
  function Matches(s: Submission, days: seq<string>): nat {
    if days == [] then 0 else (if days[0] <= s.date then 1 else 0) + Matches(s, days[1..])
  }

  /** The bars over a list of records add up to the matches, record by record. */
  lemma {:induction false} BarsSplitFirst(subs: seq<Submission>, days: seq<string>)
    requires subs != []
    ensures SumValues(BarsFor(subs, days)) == Matches(subs[0], days) + SumValues(BarsFor(subs[1..], days))
  {
    if days != [] {
      BarsSplitFirst(subs, days[1..]);
    }
  }

  /** A date can start with at most one of several distinct days of the same length. */
  lemma {:induction false} AtMostOneMatch(s: Submission, days: seq<string>)
    requires NoDup(days)
    requires forall i :: 0 <= i < |days| ==> |days[i]| == 10
    ensures Matches(s, days) <= 1
  {
    if days != [] {
      assert NoDup(days[1..]);
      AtMostOneMatch(s, days[1..]);
      if days[0] <= s.date {
        NoOtherMatch(s, days[0], days[1..]);
      }
    }
  }

  lemma {:induction false} NoOtherMatch(s: Submission, first: string, rest: seq<string>)
    requires first <= s.date
    requires forall i :: 0 <= i < |rest| ==> |rest[i]| == |first| && rest[i] != first
    ensures Matches(s, rest) == 0
  {
    if rest != [] {
      NoOtherMatch(s, first, rest[1..]);
    }
  }

  lemma {:induction false} BarsBound(subs: seq<Submission>, days: seq<string>)
    requires NoDup(days)
    requires forall i :: 0 <= i < |days| ==> |days[i]| == 10
    ensures SumValues(BarsFor(subs, days)) <= |subs|
  {
    if subs == [] {
      BarsEmpty(days);
    } else {
      BarsSplitFirst(subs, days);
      AtMostOneMatch(subs[0], days);
      BarsBound(subs[1..], days);
    }
  }

  lemma {:induction false} BarsEmpty(days: seq<string>)
    ensures SumValues(BarsFor([], days)) == 0
  {
    if days != [] {
      BarsEmpty(days[1..]);
    }
  }

  /** Seven distinct calendar days can count each record at most once, so the
      bars together never exceed the number of records. */
  lemma ChartBound(subs: seq<Submission>, days: seq<string>)
    requires |days| == 7 && NoDup(days)
    requires forall i :: 0 <= i < 7 ==> IsIsoDay(days[i])
    ensures SumValues(ChartData(subs, days)) <= |subs|
  {
    SumValuesReverse(BarsFor(subs, days));
    BarsBound(subs, days);
  }

  /** With no records every figure is zero. */
  lemma EmptyDashboard(days: seq<string>)
    requires |days| == 7
    ensures ComputeStats([]) == Stats(0, 0, 0)
    ensures AverageTenths(ComputeStats([])) == 0
    ensures forall k :: 0 <= k < 7 ==> ChartData([], days)[k].value == 0
  {
  }

  // ---------------------------------------------------------------------------
  // The figures as the dashboard shows them: over the normalised list

  /** `stats` as shown: computed over `normalizedSubmissions`. */
  function DashboardStats(subs: seq<Submission>): (st: Stats)
    ensures st.total == |subs| && st.fullyComplete <= st.total
  {
    ComputeStats(NormalizeAll(subs))
  }

  /** `chartData` as shown: computed over `normalizedSubmissions`. */
  function DashboardChart(subs: seq<Submission>, days: seq<string>): (bars: seq<Bar>)
    requires |days| == 7
    ensures bars == ChartData(subs, days)
  {
    ChartIgnoresNormalizing(subs, days);
    ChartData(NormalizeAll(subs), days)
  }

  /** A row as the store delivers it: none of the camelCase fields. */
  predicate StoreRow(s: Submission) {
    s.userName.None? && s.completedItems.None? && s.isFullComplete.None?
  }

  /** Rows whose stored `is_full_complete` column is true. */
  function StoredFullCount(subs: seq<Submission>): nat {
    if subs == [] then 0
    else (if subs[0].is_full_complete == Some(true) then 1 else 0) + StoredFullCount(subs[1..])
  }

  /** The total length of the stored `completed_items` columns, a missing one counting 0. */
  function StoredItemSum(subs: seq<Submission>): nat {
    if subs == [] then 0
    else (if subs[0].completed_items.Some? then |subs[0].completed_items.value| else 0)
         + StoredItemSum(subs[1..])
  }

  lemma NormalizeAllTail(subs: seq<Submission>)
    requires subs != []
    ensures NormalizeAll(subs)[0] == Normalize(subs[0])
    ensures NormalizeAll(subs)[1..] == NormalizeAll(subs[1..])
  {
  }

  /** Over rows delivered by the store the dashboard counts a record as
      complete exactly when its `is_full_complete` column is true, and adds
      up the lengths of the `completed_items` columns. */
  lemma {:induction false} StoreRowStats(subs: seq<Submission>)
    requires forall i :: 0 <= i < |subs| ==> StoreRow(subs[i])
    ensures DashboardStats(subs).fullyComplete == StoredFullCount(subs)
    ensures DashboardStats(subs).itemSum == StoredItemSum(subs)
  {
    if subs != [] {
      NormalizeAllTail(subs);
      StoreRowStats(subs[1..]);
    }
  }

  /** The normaliser keeps every date, so a day's count is the same before and after it. */
  lemma {:induction false} CountOnNormalized(subs: seq<Submission>, day: string)
    ensures CountOn(NormalizeAll(subs), day) == CountOn(subs, day)
  {
    if subs != [] {
      NormalizeAllTail(subs);
      CountOnNormalized(subs[1..], day);
    }
  }

  /** The bars over the normalised list are the bars over the list itself. */
  lemma BarsIgnoreNormalizing(subs: seq<Submission>, days: seq<string>)
    ensures BarsFor(NormalizeAll(subs), days) == BarsFor(subs, days)
  {
    forall k | 0 <= k < |days|
      ensures BarsFor(NormalizeAll(subs), days)[k] == BarsFor(subs, days)[k]
    {
      CountOnNormalized(subs, days[k]);
    }
  }

  /** The chart over the normalised list is the chart over the list itself. */
  lemma ChartIgnoresNormalizing(subs: seq<Submission>, days: seq<string>)
    requires |days| == 7
    ensures ChartData(NormalizeAll(subs), days) == ChartData(subs, days)
  {
    BarsIgnoreNormalizing(subs, days);
  }

  // ---------------------------------------------------------------------------
  // Roster

  /** `users.filter(u => u.role !== UserRole.ADMIN)`: the roster the dashboard lists. */
  function Collaborators(users: seq<User>): (r: seq<User>)
    ensures |r| <= |users|
    ensures forall u :: u in r ==> u in users && u.role != Admin
    ensures forall u :: u in users && u.role != Admin ==> u in r
  {
    if users == [] then []
    else (if users[0].role != Admin then [users[0]] else []) + Collaborators(users[1..])
  }

  /** The account the form creates, or `None` when a field is empty. */
  function NewCollaborator(id: string, name: string, email: string, password: string): (r: Option<User>)
    ensures r.Some? <==> name != "" && email != "" && password != ""
    ensures r.Some? ==> r.value.role == Collaborator && r.value.active
    ensures r.Some? ==> r.value.id == id && r.value.name == name && r.value.email == email
    ensures r.Some? ==> r.value.password == Stored(password)
  {
    if name == "" || email == "" || password == "" then None
    else Some(User(id, name, email, Collaborator, true, Stored(password)))
  }

  /** The new-collaborator form with its three fields. */
  class NewCollaboratorForm {
    var newName: string
    var newEmail: string
    var newPassword: string

    constructor ()
      ensures newName == "" && newEmail == "" && newPassword == ""
    {
      newName, newEmail, newPassword := "", "", "";
    }

    /** `handleAddUser`: with every field filled the account is handed to
        `onAddUser` (returned here) and the fields are cleared; otherwise
        nothing happens. The id is supplied by the caller. */
    method Submit(newId: string) returns (added: Option<User>)
      modifies this
      ensures added == NewCollaborator(newId, old(newName), old(newEmail), old(newPassword))
      ensures added.None? ==> unchanged(this)
      ensures added.Some? ==> newName == "" && newEmail == "" && newPassword == ""
    {
      added := NewCollaborator(newId, newName, newEmail, newPassword);
      if added.Some? {
        newName, newEmail, newPassword := "", "", "";
      }
    }
  }
}

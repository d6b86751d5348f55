/** The notes portfolio of pages/Notes.tsx: the set of calendar days with
    something open falling due, the search / status / day filter with its
    sort by due date, the day buttons and the month summary. The day
    toggle `handleDateClick` is `Domain.Toggle`. A calendar day is a day
    number (`Day`), which stands for the `toDateString()` comparison of the
    source. */
module NotesPage {
  import opened Collections
  import opened Domain
  import opened Text
  import opened Ledger

  /** Some note that is not PAID falls due on day `d`. */
  predicate HasOpenNoteDueOn(ns: seq<PromissoryNote>, d: int)
  {
    exists n :: n in ns && IsUnpaid(n) && Day(n.dueDate) == d
  }

  /** `dueDatesMap`: the loop over the notes that adds the due day of every
      note not PAID to a set. */
  method DueDates(ns: seq<PromissoryNote>) returns (days: set<int>)
    ensures forall d :: d in days <==> HasOpenNoteDueOn(ns, d)
  {
    days := {};
    var i := 0;
    while i < |ns|
      invariant 0 <= i <= |ns|
      invariant forall d :: d in days <==> exists j :: 0 <= j < i && IsUnpaid(ns[j]) && Day(ns[j].dueDate) == d
    {
      if ns[i].status != Paid {
        days := days + {Day(ns[i].dueDate)};
      }
      i := i + 1;
    }
  }

  /** The status tabs: every status, or exactly one. */
  datatype StatusFilter = All | Only(status: SaleStatus)

  /** The customer's name contains the term ignoring case, or the id
      contains it exactly. */
  predicate MatchesSearch(n: PromissoryNote, term: string)
  {
    Contains(ToLower(n.customerName), ToLower(term)) || Contains(n.id, term)
  }

  predicate MatchesStatus(n: PromissoryNote, filter: StatusFilter)
  {
    filter.All? || n.status == filter.status
  }

  predicate MatchesDate(n: PromissoryNote, selected: Option<int>)
  {
    selected.None? || Day(n.dueDate) == selected.value
  }

  function Visible(term: string, filter: StatusFilter, selected: Option<int>): PromissoryNote -> bool
  {
    (n: PromissoryNote) => MatchesSearch(n, term) && MatchesStatus(n, filter) && MatchesDate(n, selected)
  }

  /** Sort key of the list: earliest due date first. */
  function DueKey(n: PromissoryNote): int
  {
    n.dueDate
  }

  /** `filteredNotes`: the notes passing all three tests, earliest due date
      first, notes due at the same instant in storage order. */
  function FilteredNotes(ns: seq<PromissoryNote>, term: string, filter: StatusFilter, selected: Option<int>): (r: seq<PromissoryNote>)
    ensures forall n :: n in r <==> n in ns && MatchesSearch(n, term) && MatchesStatus(n, filter) && MatchesDate(n, selected)
    ensures multiset(r) == multiset(Filter(ns, Visible(term, filter, selected)))
    ensures forall i, j :: 0 <= i < j < |r| ==> r[i].dueDate <= r[j].dueDate
  {
    var p := Visible(term, filter, selected);
    var f := Filter(ns, p);
    var r := SortBy(f, DueKey);
    SameMembers(r, f);
    assert forall i, j :: 0 <= i < j < |r| ==> DueKey(r[i]) <= DueKey(r[j]);
    r
  }

  /** Notes due at the same instant keep their stored order. */
  lemma FilteredNotesStable(ns: seq<PromissoryNote>, term: string, filter: StatusFilter, selected: Option<int>, due: Instant)
    ensures Filter(FilteredNotes(ns, term, filter, selected), HasKey(DueKey, due))
         == Filter(Filter(ns, Visible(term, filter, selected)), HasKey(DueKey, due))
  {
    SortStable(Filter(ns, Visible(term, filter, selected)), DueKey, due);
  }

  /** Other notes are irrelevant: the list is the same whether or not notes
      failing the filter are stored. */
  lemma FilteredNotesIgnoresHidden(ns: seq<PromissoryNote>, extra: PromissoryNote, term: string, filter: StatusFilter, selected: Option<int>)
    requires !Visible(term, filter, selected)(extra)
    ensures FilteredNotes(ns + [extra], term, filter, selected) == FilteredNotes(ns, term, filter, selected)
  {
    var p := Visible(term, filter, selected);
    FilterConcat(ns, [extra], p);
    FilterDropsAll([extra], p);
    assert Filter(ns, p) + [] == Filter(ns, p);
  }

  /** With an empty search, the ALL tab and no day selected, every note is
      listed. */
  lemma NoFilterListsAll(ns: seq<PromissoryNote>)
    ensures multiset(FilteredNotes(ns, "", All, None)) == multiset(ns)
    ensures |FilteredNotes(ns, "", All, None)| == |ns|
  {
    var p := Visible("", All, None);
    forall n | n in ns ensures p(n) {
      assert ToLower("") == "";
      ContainsEmpty(ToLower(n.customerName));
    }
    FilterKeepsAll(ns, p);
    assert |FilteredNotes(ns, "", All, None)| == |multiset(FilteredNotes(ns, "", All, None))|;
  }

  /** Selecting a day lists every note due on it, whatever its time of
      day: two notes due at different hours of the selected day both
      appear, provided the search and the tab let them through. */
  lemma SelectedDayListsWholeDay(ns: seq<PromissoryNote>, term: string, filter: StatusFilter, day: int,
                                 n1: PromissoryNote, h1: int, n2: PromissoryNote, h2: int)
    requires n1 in ns && n2 in ns
    requires MatchesSearch(n1, term) && MatchesStatus(n1, filter)
    requires MatchesSearch(n2, term) && MatchesStatus(n2, filter)
    requires 0 <= h1 < MsPerDay && 0 <= h2 < MsPerDay
    requires n1.dueDate == day * MsPerDay + h1 && n2.dueDate == day * MsPerDay + h2
    ensures n1 in FilteredNotes(ns, term, filter, Some(day))
    ensures n2 in FilteredNotes(ns, term, filter, Some(day))
  {
    SameDay(day, h1, h2);
  }

  /** The day button's `disabled` test on the set `dueDays` that `DueDates`
      builds: no open note falls due that day and the day is not the
      selected one. */
  predicate DayDisabled(dueDays: set<int>, selected: Option<int>, day: int)
  {
    day !in dueDays && selected != Some(day)
  }

  /** With `dueDays` as `DueDates` returns it, clicking an enabled day that
      is not selected selects it, and with an empty search and the ALL tab
      the list then shows an open note due that day. */
  lemma EnabledDayShowsItsNote(ns: seq<PromissoryNote>, dueDays: set<int>, selected: Option<int>, day: int)
    requires forall d :: d in dueDays <==> HasOpenNoteDueOn(ns, d)
    requires !DayDisabled(dueDays, selected, day) && selected != Some(day)
    ensures Toggle(selected, day) == Some(day)
    ensures exists n :: n in FilteredNotes(ns, "", All, Toggle(selected, day)) && IsUnpaid(n) && Day(n.dueDate) == day
  {
    assert HasOpenNoteDueOn(ns, day);
    var n :| n in ns && IsUnpaid(n) && Day(n.dueDate) == day;
    assert ToLower("") == "";
    ContainsEmpty(ToLower(n.customerName));
    assert n in FilteredNotes(ns, "", All, Some(day));
  }

  /** The month summary: "to receive" over PENDING notes, "in arrears" over
      OVERDUE notes. */
  datatype Summary = Summary(receivable: int, arrears: int)

  function MonthSummary(ns: seq<PromissoryNote>): (r: Summary)
    ensures r.receivable == StatusTotal(ns, Pending)
    ensures r.arrears == StatusTotal(ns, Overdue)
    ensures r.receivable + r.arrears == UnpaidTotal(ns)
    ensures NonNegativeAmounts(ns) ==> 0 <= r.receivable && 0 <= r.arrears
  {
    PendingPlusOverdue(ns);
    SummaryNonNegative(ns);
    Summary(StatusTotal(ns, Pending), StatusTotal(ns, Overdue))
  }

  lemma SummaryNonNegative(ns: seq<PromissoryNote>)
    ensures NonNegativeAmounts(ns) ==> 0 <= StatusTotal(ns, Pending) && 0 <= StatusTotal(ns, Overdue)
  {
    if NonNegativeAmounts(ns) {
      SumFilterBounded(ns, HasStatus(Pending), Amount);
      SumFilterBounded(ns, HasStatus(Overdue), Amount);
    }
  }

  /** Settling a note moves its amount out of the summary. */
  lemma SettlingLeavesSummary(ns: seq<PromissoryNote>, i: nat)
    requires i < |ns|
    ensures var r, r' := MonthSummary(ns), MonthSummary(ns[i := ns[i].(status := Paid)]);
            r'.receivable + r'.arrears == r.receivable + r.arrears - (if IsUnpaid(ns[i]) then ns[i].totalAmount else 0)
  {
    UnpaidUpdate(ns, i, ns[i].(status := Paid));
  }
}

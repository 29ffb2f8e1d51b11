/** The events page (pages/Events.tsx): the catalog narrowed by a month
    selector and a case-insensitive search over name and location. */
module Events {
  import opened Types
  import opened Text
  import opened Collections

  /** The month selector: every month, or one month number. */
  datatype MonthFilter = AllMonths | Month(num: int)

  /** A button of the month selector. */
  datatype MonthOption = MonthOption(num: int, name: string)

  /** The selector's months, in calendar order. */
  const Months: seq<MonthOption> := [
    MonthOption(1, "Jan"), MonthOption(2, "Feb"), MonthOption(3, "Mar"),
    MonthOption(4, "Apr"), MonthOption(5, "May"), MonthOption(6, "Jun"),
    MonthOption(7, "Jul"), MonthOption(8, "Aug"), MonthOption(9, "Sep"),
    MonthOption(10, "Oct"), MonthOption(11, "Nov"), MonthOption(12, "Dec")
  ]

  /** The selectable months are exactly the calendar months 1..12, in order,
      which is the range the event record documents for `month`. */
  lemma MonthsAreCalendarMonths()
    ensures |Months| == 12
    ensures forall i :: 0 <= i < |Months| ==> Months[i].num == i + 1
  {
  }

  predicate MatchesMonth(selected: MonthFilter, e: JapanEvent)
  {
    selected.AllMonths? || e.month == selected.num
  }

  predicate MatchesSearch(term: string, e: JapanEvent)
  {
    Contains(Lower(e.name), Lower(term)) || Contains(Lower(e.location), Lower(term))
  }

  /** The test `filteredEvents` applies to each event. */
  predicate Keep(selected: MonthFilter, term: string, e: JapanEvent)
  {
    MatchesMonth(selected, e) && MatchesSearch(term, e)
  }

  /** `filteredEvents`: every returned event is a catalog event that matches
      both the month and the search, and every catalog event that matches
      both is returned. */
  function FilteredEvents(events: seq<JapanEvent>, selected: MonthFilter, term: string): (r: seq<JapanEvent>)
    ensures forall i :: 0 <= i < |r| ==>
      r[i] in events && MatchesMonth(selected, r[i]) && MatchesSearch(term, r[i])
    ensures forall i :: 0 <= i < |events| && MatchesMonth(selected, events[i]) && MatchesSearch(term, events[i]) ==>
      events[i] in r
  {
    Filter(events, e => Keep(selected, term, e))
  }

  /** The page shows the events in catalog order, each as often as the
      catalog lists it when it matches. */
  lemma FilteredEventsInOrder(events: seq<JapanEvent>, selected: MonthFilter, term: string, e: JapanEvent)
    ensures IsSubsequence(FilteredEvents(events, selected, term), events)
    ensures multiset(FilteredEvents(events, selected, term))[e] ==
      if Keep(selected, term, e) then multiset(events)[e] else 0
  {
    FilterIsSubsequence(events, e => Keep(selected, term, e));
    FilterCount(events, e => Keep(selected, term, e), e);
  }

  /** An empty search term matches every event, so "all months" with an
      empty search shows the whole catalog. */
  lemma EmptySearchShowsAll(events: seq<JapanEvent>)
    ensures FilteredEvents(events, AllMonths, "") == events
  {
    forall i | 0 <= i < |events|
      ensures Keep(AllMonths, "", events[i])
    {
      assert Contains(Lower(events[i].name), Lower(""));
    }
    FilterKeepsAll(events, e => Keep(AllMonths, "", e));
  }

  /** The search ignores the case of the term. */
  lemma SearchIgnoresCase(events: seq<JapanEvent>, selected: MonthFilter, term: string)
    ensures FilteredEvents(events, selected, Lower(term)) == FilteredEvents(events, selected, term)
  {
    LowerIdempotent(term);
    FilterCongruent(events, e => Keep(selected, Lower(term), e), e => Keep(selected, term, e));
  }

  /** "No events found" is shown exactly when no catalog event matches both tests. */
  lemma NoEventsNoticeIff(events: seq<JapanEvent>, selected: MonthFilter, term: string)
    ensures FilteredEvents(events, selected, term) == [] <==>
      forall i :: 0 <= i < |events| ==> !Keep(selected, term, events[i])
  {
    FilterEmptyIff(events, e => Keep(selected, term, e));
  }

  /** With an empty search only the month selector narrows the list. */
  lemma EmptySearchFiltersByMonthOnly(events: seq<JapanEvent>, selected: MonthFilter)
    ensures FilteredEvents(events, selected, "") == Filter(events, e => MatchesMonth(selected, e))
  {
    forall i | 0 <= i < |events|
      ensures Keep(selected, "", events[i]) == MatchesMonth(selected, events[i])
    {
      assert Contains(Lower(events[i].name), Lower(""));
    }
    FilterCongruent(events, e => Keep(selected, "", e), e => MatchesMonth(selected, e));
  }
}

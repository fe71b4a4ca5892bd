/** The memory journal (frontend/src/modals/MemoryJournalModal.js): the
    caller's entries, filtered by the active tab and sorted by date, newest
    or oldest first. The modal owns `activeTab`, `sortOrder` and whether the
    sort dropdown is open. */
module MemoryJournal {
  import opened Base

  /** `type` is "speech", "moment" or "write-up" in the caller's data;
      `date` is text that `new Date(...)` reads, given here as `parse`. */
  datatype Entry = Entry(id: int, kind: string, title: string, date: string)

  const NewestFirst: string := "newest-to-oldest"
  const OldestFirst: string := "oldest-to-newest"

  /** The filter callback: which entries a tab shows. */
  predicate MatchesTab(tab: string, e: Entry) {
    if tab == "All" then true
    else if tab == "Speech" then e.kind == "speech"
    else if tab == "Moments" then e.kind == "moment"
    else if tab == "Write Ups" then e.kind == "write-up"
    else false
  }

  /** The filter callback as a function value. */
  function TabFilter(tab: string): (Entry -> bool) {
    (e: Entry) => MatchesTab(tab, e)
  }

  /** The sort key: the comparator `dateB - dateA` for newest first is an
      ascending sort on the negated date, otherwise on the date itself. */
  function SortKey(order: string, parse: string -> int): (Entry -> int) {
    if order == NewestFirst then (e: Entry) => -parse(e.date) else (e: Entry) => parse(e.date)
  }

  /** `filteredAndSortedEntries`. */
  function FilteredAndSorted(entries: seq<Entry>, tab: string, order: string, parse: string -> int): (r: seq<Entry>)
    ensures multiset(r) == multiset(Filter(entries, TabFilter(tab)))
    ensures forall k :: 0 <= k < |r| ==> MatchesTab(tab, r[k]) && r[k] in entries
    ensures order == NewestFirst ==>
      forall i, j :: 0 <= i < j < |r| ==> parse(r[i].date) >= parse(r[j].date)
    ensures order != NewestFirst ==>
      forall i, j :: 0 <= i < j < |r| ==> parse(r[i].date) <= parse(r[j].date)
  {
    var shown := Filter(entries, TabFilter(tab));
    var r := SortBy(shown, SortKey(order, parse));
    SortedDates(r, order, parse);
    ShownAreMatching(entries, tab, r);
    r
  }

  /** Sorted by the key means dates in the chosen direction. */
  lemma SortedDates(r: seq<Entry>, order: string, parse: string -> int)
    requires SortedBy(r, SortKey(order, parse))
    ensures order == NewestFirst ==>
      forall i, j :: 0 <= i < j < |r| ==> parse(r[i].date) >= parse(r[j].date)
    ensures order != NewestFirst ==>
      forall i, j :: 0 <= i < j < |r| ==> parse(r[i].date) <= parse(r[j].date)
  {
    var key := SortKey(order, parse);
    forall i, j | 0 <= i < j < |r|
      ensures order == NewestFirst ==> parse(r[i].date) >= parse(r[j].date)
      ensures order != NewestFirst ==> parse(r[i].date) <= parse(r[j].date)
    {
      assert key(r[i]) <= key(r[j]);
    }
  }

  /** A permutation of the filtered entries holds only matching entries. */
  lemma ShownAreMatching(entries: seq<Entry>, tab: string, r: seq<Entry>)
    requires multiset(r) == multiset(Filter(entries, TabFilter(tab)))
    ensures forall k :: 0 <= k < |r| ==> MatchesTab(tab, r[k]) && r[k] in entries
  {
    var shown := Filter(entries, TabFilter(tab));
    forall k | 0 <= k < |r| ensures MatchesTab(tab, r[k]) && r[k] in entries {
      assert r[k] in multiset(shown);
      assert r[k] in shown;
    }
  }

  /** An entry is shown exactly as often as it occurs when the tab matches
      it, and not at all otherwise. */
  lemma ShownExactlyWhenMatching(entries: seq<Entry>, tab: string, order: string, parse: string -> int, x: Entry)
    ensures multiset(FilteredAndSorted(entries, tab, order, parse))[x]
         == if MatchesTab(tab, x) then multiset(entries)[x] else 0
  {
    FilterCount(entries, TabFilter(tab), x);
  }

  /** "All" shows every entry. */
  lemma AllTabShowsEverything(entries: seq<Entry>, order: string, parse: string -> int)
    ensures multiset(FilteredAndSorted(entries, "All", order, parse)) == multiset(entries)
  {
    forall x ensures multiset(FilteredAndSorted(entries, "All", order, parse))[x] == multiset(entries)[x] {
      ShownExactlyWhenMatching(entries, "All", order, parse, x);
    }
  }

  /** "Speech", "Moments" and "Write Ups" show exactly the entries of type
      speech, moment and write-up. */
  lemma KindTabsSelectKind(entries: seq<Entry>, order: string, parse: string -> int, x: Entry)
    ensures multiset(FilteredAndSorted(entries, "Speech", order, parse))[x]
         == if x.kind == "speech" then multiset(entries)[x] else 0
    ensures multiset(FilteredAndSorted(entries, "Moments", order, parse))[x]
         == if x.kind == "moment" then multiset(entries)[x] else 0
    ensures multiset(FilteredAndSorted(entries, "Write Ups", order, parse))[x]
         == if x.kind == "write-up" then multiset(entries)[x] else 0
  {
    ShownExactlyWhenMatching(entries, "Speech", order, parse, x);
    ShownExactlyWhenMatching(entries, "Moments", order, parse, x);
    ShownExactlyWhenMatching(entries, "Write Ups", order, parse, x);
  }

  /** A tab outside the four shows nothing. */
  lemma UnknownTabShowsNothing(entries: seq<Entry>, tab: string, order: string, parse: string -> int)
    requires tab !in ["All", "Speech", "Moments", "Write Ups"]
    ensures FilteredAndSorted(entries, tab, order, parse) == []
  {
  }

  class JournalView {
    var activeTab: string
    var sortOrder: string
    var isSortDropdownOpen: bool

    constructor ()
      ensures activeTab == "All" && sortOrder == NewestFirst && !isSortDropdownOpen
    {
      activeTab, sortOrder, isSortDropdownOpen := "All", NewestFirst, false;
    }

    /** What the list renders. */
    function Shown(entries: seq<Entry>, parse: string -> int): (r: seq<Entry>)
      reads this
      ensures multiset(r) == multiset(Filter(entries, TabFilter(activeTab)))
      ensures sortOrder == NewestFirst ==>
        forall i, j :: 0 <= i < j < |r| ==> parse(r[i].date) >= parse(r[j].date)
      ensures sortOrder != NewestFirst ==>
        forall i, j :: 0 <= i < j < |r| ==> parse(r[i].date) <= parse(r[j].date)
    {
      FilteredAndSorted(entries, activeTab, sortOrder, parse)
    }

    /** A tab button. */
    method SelectTab(tab: string)
      modifies this
      ensures activeTab == tab
      ensures sortOrder == old(sortOrder) && isSortDropdownOpen == old(isSortDropdownOpen)
    {
      activeTab := tab;
    }

    /** The dropdown button. */
    method ToggleSortDropdown()
      modifies this
      ensures isSortDropdownOpen == !old(isSortDropdownOpen)
      ensures activeTab == old(activeTab) && sortOrder == old(sortOrder)
    {
      isSortDropdownOpen := !isSortDropdownOpen;
    }

    /** An option of the dropdown: sets the order and closes the dropdown. */
    method ChooseSortOrder(order: string)
      requires order == NewestFirst || order == OldestFirst
      modifies this
      ensures sortOrder == order && !isSortDropdownOpen
      ensures activeTab == old(activeTab)
    {
      sortOrder := order;
      isSortDropdownOpen := false;
    }
  }
}

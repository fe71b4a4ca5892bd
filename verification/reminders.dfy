/** The reminders editor (frontend/src/modals/RemindersModal.js): a list
    view sorted by date and time, and an add/edit form over a draft. The
    list itself belongs to the caller (`reminders`/`setReminders`); the
    modal owns `isListView` and the draft `currentReminder`. */
module Reminders {
  import opened Base

  /** `id` is `null` (None) for a draft that was never saved; `datetime` is
      the `datetime-local` input text, for instance "2025-01-31T09:30". */
  datatype Reminder = Reminder(id: Option<int>, text: string, datetime: string)

  /** JavaScript truthiness of `reminder.id`: `null` and `0` are falsy. */
  predicate HasId(r: Reminder) {
    r.id.Some? && r.id.value != 0
  }

  /** The save guard `!text || !datetime`, negated: both fields non-empty.
      It tests emptiness, not blankness: "  " passes. */
  predicate CanSave(draft: Reminder) {
    draft.text != [] && draft.datetime != []
  }

  /** No two reminders share a non-null id. */
  ghost predicate UniqueIds(rs: seq<Reminder>) {
    forall i, j :: 0 <= i < j < |rs| && rs[i].id.Some? ==> rs[i].id != rs[j].id
  }

  // ---------------------------------------------------------------------------
  // List operations
  // ---------------------------------------------------------------------------

  /** `handleDelete`: `reminders.filter(r => r.id !== id)`. */
  function DeleteById(rs: seq<Reminder>, id: Option<int>): (r: seq<Reminder>)
    ensures forall k :: 0 <= k < |r| ==> r[k].id != id && r[k] in rs
    ensures forall x :: x in rs && x.id != id ==> x in r
  {
    Filter(rs, (x: Reminder) => x.id != id)
  }

  /** Deleting keeps every other reminder as often as it occurred, removes
      every reminder with that id, and keeps the relative order. */
  lemma DeleteKeepsOthers(rs: seq<Reminder>, id: Option<int>, x: Reminder, tail: seq<Reminder>)
    ensures multiset(DeleteById(rs, id))[x] == if x.id == id then 0 else multiset(rs)[x]
    ensures DeleteById(rs + tail, id) == DeleteById(rs, id) + DeleteById(tail, id)
  {
    FilterCount(rs, (y: Reminder) => y.id != id, x);
    FilterConcat(rs, tail, (y: Reminder) => y.id != id);
  }

  /** `handleSave` for a draft with an id: `reminders.map(r => r.id ===
      draft.id ? draft : r)`. */
  function ReplaceById(rs: seq<Reminder>, draft: Reminder): (r: seq<Reminder>)
    ensures |r| == |rs|
    ensures forall k :: 0 <= k < |rs| ==> r[k].id == rs[k].id
    ensures forall k :: 0 <= k < |rs| ==> r[k] == if rs[k].id == draft.id then draft else rs[k]
  {
    seq(|rs|, k requires 0 <= k < |rs| => if rs[k].id == draft.id then draft else rs[k])
  }

  /** `handleSave` for a new draft: `[...reminders, { ...draft, id: fresh }]`. */
  function AppendNew(rs: seq<Reminder>, draft: Reminder, freshId: int): (r: seq<Reminder>)
    ensures |r| == |rs| + 1 && r[..|rs|] == rs
    ensures r[|rs|] == Reminder(Some(freshId), draft.text, draft.datetime)
  {
    rs + [draft.(id := Some(freshId))]
  }

  /** Replacing by id cannot create a duplicate id. */
  lemma ReplaceKeepsIdsUnique(rs: seq<Reminder>, draft: Reminder)
    requires UniqueIds(rs)
    ensures UniqueIds(ReplaceById(rs, draft))
  {
    var r := ReplaceById(rs, draft);
    forall i, j | 0 <= i < j < |r| && r[i].id.Some? ensures r[i].id != r[j].id {
      assert r[i].id == rs[i].id && r[j].id == rs[j].id;
    }
  }

  /** With unique ids, saving an existing reminder changes exactly the one
      element carrying that id. */
  lemma ReplaceChangesOnlyThatReminder(rs: seq<Reminder>, draft: Reminder, k: nat)
    requires UniqueIds(rs) && k < |rs| && rs[k].id == draft.id && HasId(draft)
    ensures ReplaceById(rs, draft) == rs[k := draft]
  {
    var r := ReplaceById(rs, draft);
    forall m | 0 <= m < |rs| ensures r[m] == rs[k := draft][m] {
      if m != k {
        if m < k { assert rs[m].id != rs[k].id; } else { assert rs[k].id != rs[m].id; }
      }
    }
  }

  /** Appending under an id no reminder has keeps ids unique. */
  lemma AppendKeepsIdsUnique(rs: seq<Reminder>, draft: Reminder, freshId: int)
    requires UniqueIds(rs)
    requires forall x :: x in rs ==> x.id != Some(freshId)
    ensures UniqueIds(AppendNew(rs, draft, freshId))
  {
    var r := AppendNew(rs, draft, freshId);
    forall i, j | 0 <= i < j < |r| && r[i].id.Some? ensures r[i].id != r[j].id {
      if j == |rs| {
        assert r[i] in rs;
      } else {
        assert r[i] == rs[i] && r[j] == rs[j];
      }
    }
  }

  /** `sortedReminders`: a sorted copy by date and time. Turning the
      `datetime` text into a time value (`new Date(...)`) is `parse`. */
  function Chronological(rs: seq<Reminder>, parse: string -> int): (r: seq<Reminder>)
    ensures multiset(r) == multiset(rs)
    ensures forall i, j :: 0 <= i < j < |r| ==> parse(r[i].datetime) <= parse(r[j].datetime)
  {
    var key := (x: Reminder) => parse(x.datetime);
    var r := SortBy(rs, key);
    assert forall i, j :: 0 <= i < j < |r| ==> key(r[i]) <= key(r[j]);
    r
  }

  // ---------------------------------------------------------------------------
  // The modal
  // ---------------------------------------------------------------------------

  class RemindersEditor {
    var reminders: seq<Reminder>
    var isListView: bool
    var current: Option<Reminder>

    /** The form is shown only with a draft to edit. */
    ghost predicate Valid()
      reads this
    {
      !isListView ==> current.Some?
    }

    constructor (initial: seq<Reminder>)
      ensures Valid()
      ensures reminders == initial && isListView && current == None
    {
      reminders, isListView, current := initial, true, None;
    }

    /** `sortedReminders`, recomputed from `reminders` on every render. */
    function SortedView(parse: string -> int): (r: seq<Reminder>)
      reads this
      ensures multiset(r) == multiset(reminders)
      ensures forall i, j :: 0 <= i < j < |r| ==> parse(r[i].datetime) <= parse(r[j].datetime)
    {
      Chronological(reminders, parse)
    }

    /** `handleAddNew`: an empty draft dated now (`nowIso` is the current
        time as an ISO text in UTC cut to minutes), then the form. */
    method AddNew(nowIso: string)
      requires Valid()
      modifies this
      ensures Valid() && !isListView && reminders == old(reminders)
      ensures current == Some(Reminder(None, "", nowIso))
    {
      current := Some(Reminder(None, "", nowIso));
      isListView := false;
    }

    /** `handleEdit`: the chosen reminder becomes the draft. */
    method Edit(r: Reminder)
      requires Valid()
      modifies this
      ensures Valid() && !isListView && reminders == old(reminders)
      ensures current == Some(r)
    {
      current := Some(r);
      isListView := false;
    }

    /** `handleDelete`. */
    method Delete(id: Option<int>)
      requires Valid()
      modifies this
      ensures Valid() && reminders == DeleteById(old(reminders), id)
      ensures isListView == old(isListView) && current == old(current)
    {
      reminders := DeleteById(reminders, id);
    }

    /** The text area's `onChange`. */
    method SetText(text: string)
      requires Valid() && !isListView
      modifies this
      ensures Valid() && !isListView && reminders == old(reminders)
      ensures current == Some(old(current).value.(text := text))
    {
      current := Some(current.value.(text := text));
    }

    /** The date-time input's `onChange`. */
    method SetDatetime(datetime: string)
      requires Valid() && !isListView
      modifies this
      ensures Valid() && !isListView && reminders == old(reminders)
      ensures current == Some(old(current).value.(datetime := datetime))
    {
      current := Some(current.value.(datetime := datetime));
    }

    /** "Cancel": back to the list; the list and the draft stay as they are. */
    method Cancel()
      requires Valid()
      modifies this
      ensures Valid() && isListView
      ensures reminders == old(reminders) && current == old(current)
    {
      isListView := true;
    }

    /** `handleSave`, pressed on the form. `freshId` stands for `Date.now()`:
        non-zero, and no reminder has it yet. */
    method Save(freshId: int) returns (saved: bool)
      requires Valid() && !isListView
      requires freshId != 0 && forall x :: x in reminders ==> x.id != Some(freshId)
      modifies this
      ensures Valid()
      ensures saved == CanSave(old(current).value)
      ensures !saved ==> reminders == old(reminders) && !isListView && current == old(current)
      ensures saved ==> isListView && current == None
      ensures saved && HasId(old(current).value) ==> reminders == ReplaceById(old(reminders), old(current).value)
      ensures saved && !HasId(old(current).value) ==> reminders == AppendNew(old(reminders), old(current).value, freshId)
    {
      var draft := current.value;
      if !CanSave(draft) {
        return false;
      }
      if HasId(draft) {
        reminders := ReplaceById(reminders, draft);
      } else {
        reminders := AppendNew(reminders, draft, freshId);
      }
      isListView := true;
      current := None;
      saved := true;
    }
  }
}

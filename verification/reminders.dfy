/**
 * The reminders card (src/components/RemindersSection.tsx): adding a
 * reminder from the input or from a suggestion, and the card's split of the
 * stored reminders into an active list and a shortened completed list.
 */
module Reminders {
  import opened Wrappers
  import opened Js
  import opened Types
  import opened Storage
  import Memory

  /** `reminderSuggestions`. */
  const ReminderSuggestions := [
    "Drink water", "Take a short break", "Stretch for 5 minutes", "Check in with a friend",
    "Review your notes", "Finish homework", "Get some fresh air", "Eat a healthy meal",
    "Take medication", "Go to bed early"
  ]

  const OfferedSuggestions := 5
  const ShownCompleted := 3

  /** `text || newReminder.trim()`: a non-empty suggestion as given, else the trimmed input. */
  function ReminderText(suggestion: Option<string>, input: string): (r: string)
    ensures suggestion.Some? && suggestion.value != "" ==> r == suggestion.value
    ensures suggestion.None? || suggestion.value == "" ==> r == Trim(input)
  {
    if suggestion.Some? && suggestion.value != "" then suggestion.value else Trim(input)
  }

  /** The input field's text and the store after an add. */
  datatype Added = Added(input: string, store: LocalStore)

  /**
   * `handleAddReminder`. An empty text adds nothing and keeps the input;
   * otherwise an open reminder with that text goes in front of the list and
   * the input is cleared. `nowMillis` is `Date.now()`, `stamp` is `new Date()`.
   */
  function HandleAddReminder(suggestion: Option<string>, input: string, store: LocalStore,
                             nowMillis: int, stamp: Timestamp): (r: Added)
    ensures ReminderText(suggestion, input) == "" ==> r == Added(input, store)
    ensures ReminderText(suggestion, input) != "" ==>
              && r.input == ""
              && r.store.userMemory.Some?
              && r.store.userMemory.value.reminders
                   == [Reminder(DecimalString(nowMillis), ReminderText(suggestion, input), false, stamp)]
                      + Memory.Current(store).reminders
              && r.store.userMemory.value == Memory.Current(store).(reminders := r.store.userMemory.value.reminders)
    ensures r.store.apiConfig == store.apiConfig && r.store.conversations == store.conversations
  {
    var text := ReminderText(suggestion, input);
    if text == "" then Added(input, store)
    else Added("", Memory.AddReminder(store, Reminder(DecimalString(nowMillis), text, false, stamp)))
  }

  /** A blank input with no suggestion never adds a reminder. */
  lemma BlankInputAddsNothing(input: string, store: LocalStore, nowMillis: int, stamp: Timestamp)
    requires Blank(input)
    ensures HandleAddReminder(None, input, store, nowMillis, stamp) == Added(input, store)
  {
  }

  // ------------------------------------------------------------ the split

  /** `reminders.filter(r => r.completed)`. */
  function CompletedReminders(reminders: seq<Reminder>): (r: seq<Reminder>)
    ensures |r| <= |reminders|
    ensures forall x :: x in r <==> x in reminders && x.completed
  {
    if |reminders| == 0 then []
    else (if reminders[0].completed then [reminders[0]] else []) + CompletedReminders(reminders[1..])
  }

  /** `all` is `active` and `done` merged, each kept in order, every element placed by its flag. */
  ghost predicate Interleaves(active: seq<Reminder>, done: seq<Reminder>, all: seq<Reminder>)
    decreases |all|
  {
    if |all| == 0 then active == [] && done == []
    else if all[0].completed then |done| > 0 && done[0] == all[0] && Interleaves(active, done[1..], all[1..])
    else |active| > 0 && active[0] == all[0] && Interleaves(active[1..], done, all[1..])
  }

  /**
   * The active and completed lists partition the reminders and keep their
   * stored order: the stored list is exactly their interleaving.
   */
  lemma {:induction false} SplitInterleaves(reminders: seq<Reminder>)
    ensures Interleaves(Memory.ActiveReminders(reminders), CompletedReminders(reminders), reminders)
    ensures |Memory.ActiveReminders(reminders)| + |CompletedReminders(reminders)| == |reminders|
  {
    if |reminders| > 0 {
      SplitInterleaves(reminders[1..]);
      var a := Memory.ActiveReminders(reminders[1..]);
      var c := CompletedReminders(reminders[1..]);
      if reminders[0].completed {
        assert Memory.ActiveReminders(reminders) == a;
        assert CompletedReminders(reminders) == [reminders[0]] + c;
        assert CompletedReminders(reminders)[1..] == c;
      } else {
        assert Memory.ActiveReminders(reminders) == [reminders[0]] + a;
        assert CompletedReminders(reminders) == c;
        assert Memory.ActiveReminders(reminders)[1..] == a;
      }
    }
  }

  /** No reminder is in both lists. */
  lemma SplitDisjoint(reminders: seq<Reminder>)
    ensures forall x :: x in Memory.ActiveReminders(reminders) ==> x !in CompletedReminders(reminders)
  {
  }

  /** What the card lists. `moreCompleted` is the N of "+N more completed reminders". */
  datatype RemindersView = RemindersView(
    suggestions: seq<string>,
    active: seq<Reminder>,
    completedShown: seq<Reminder>,
    moreCompleted: Option<int>)

  /** The card for a list of reminders. */
  function ViewReminders(reminders: seq<Reminder>): (v: RemindersView)
    ensures |reminders| == 0 ==> v.suggestions == ReminderSuggestions[..OfferedSuggestions]
    ensures |reminders| > 0 ==> v.suggestions == []
    ensures v.active == Memory.ActiveReminders(reminders)
    ensures |v.completedShown| == if |CompletedReminders(reminders)| <= ShownCompleted
                                  then |CompletedReminders(reminders)| else ShownCompleted
    ensures v.completedShown == CompletedReminders(reminders)[..|v.completedShown|]
    ensures v.moreCompleted.Some? <==> |CompletedReminders(reminders)| > ShownCompleted
    ensures |v.completedShown| + v.moreCompleted.GetOr(0) == |CompletedReminders(reminders)|
  {
    var done := CompletedReminders(reminders);
    RemindersView(
      if |reminders| == 0 then Take(ReminderSuggestions, OfferedSuggestions) else [],
      Memory.ActiveReminders(reminders),
      Take(done, ShownCompleted),
      if |done| > ShownCompleted then Some(|done| - ShownCompleted) else None)
  }

  /** What the card shows, and the store after its `initializeMemory` call. */
  datatype RemindersCard = RemindersCard(view: RemindersView, store: LocalStore)

  /**
   * The rendered card: the view of the current memory's reminders. Reading the
   * memory writes the default one when none is stored; otherwise the store is untouched.
   */
  function RenderReminders(store: LocalStore): (c: RemindersCard)
    ensures c.view == ViewReminders(Memory.Current(store).reminders)
    ensures store.userMemory.Some? ==> c.store == store
    ensures store.userMemory.None? ==>
              && c.view.suggestions == ReminderSuggestions[..OfferedSuggestions]
              && c.view.active == [] && c.view.completedShown == [] && c.view.moreCompleted.None?
              && c.store.userMemory.Some? && c.store.userMemory.value.reminders == []
    ensures c.store.apiConfig == store.apiConfig && c.store.conversations == store.conversations
  {
    var init := Memory.InitializeMemory(store);
    RemindersCard(ViewReminders(init.memory.reminders), init.store)
  }

  /** After an add, the new reminder heads the active list and the suggestions are gone. */
  lemma AddedHeadsActive(suggestion: Option<string>, input: string, store: LocalStore,
                         nowMillis: int, stamp: Timestamp)
    requires ReminderText(suggestion, input) != ""
    ensures var after := HandleAddReminder(suggestion, input, store, nowMillis, stamp).store;
            var v := ViewReminders(Memory.Current(after).reminders);
            && v.suggestions == []
            && |v.active| > 0
            && v.active[0].message == ReminderText(suggestion, input)
  {
  }
}

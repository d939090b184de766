/**
 * The mood tracker card (src/components/MoodTracker.tsx) as a state machine
 * over (selected mood, note, expanded). The clock is a parameter: `Date.now()`
 * gives the entry id and `new Date()` its timestamp, two separate readings.
 */
module MoodTracker {
  import opened Wrappers
  import opened Js
  import opened Types
  import opened Storage
  import Memory

  datatype TrackerState = TrackerState(selected: Option<Mood>, note: string, expanded: bool)

  const InitialTracker := TrackerState(None, "", false)

  /** The state after a tap, and the mood handed to the `onMoodSelect` callback when one is given. */
  datatype Selection = Selection(state: TrackerState, notified: Option<Mood>)

  /** `handleMoodSelect`: the tapped mood becomes the selection and the note field opens. */
  function SelectMood(state: TrackerState, mood: Mood, hasCallback: bool): (r: Selection)
    ensures r.state.selected == Some(mood) && r.state.expanded
    ensures r.state.note == state.note
    ensures r.notified.Some? <==> hasCallback
    ensures hasCallback ==> r.notified == Some(mood)
  {
    Selection(state.(selected := Some(mood), expanded := true), if hasCallback then Some(mood) else None)
  }

  /** `note.trim() || undefined`: the trimmed note, absent when nothing but blanks was typed. */
  function SavedNote(note: string): (r: Option<string>)
    ensures r.None? <==> Blank(note)
    ensures r.Some? ==> r.value == Trim(note)
    ensures r.Some? ==> r.value != "" && !IsWhitespace(r.value[0]) && !IsWhitespace(r.value[|r.value| - 1])
  {
    var t := Trim(note);
    if t == "" then None else Some(t)
  }

  datatype Saved = Saved(state: TrackerState, store: LocalStore)

  /**
   * `handleSaveMood`: without a selection nothing happens; otherwise the
   * entry is put in front of the history and the form is reset.
   */
  function SaveMood(state: TrackerState, store: LocalStore, nowMillis: int, stamp: Timestamp): (r: Saved)
    ensures state.selected.None? ==> r == Saved(state, store)
    ensures state.selected.Some? ==>
              && r.state == InitialTracker
              && r.store.userMemory.Some?
              && var history := r.store.userMemory.value.moodHistory;
              && |history| == |Memory.Current(store).moodHistory| + 1
              && history[0] == MoodEntry(DecimalString(nowMillis), state.selected.value, SavedNote(state.note), stamp)
              && history[1..] == Memory.Current(store).moodHistory
    ensures r.store.apiConfig == store.apiConfig && r.store.conversations == store.conversations
  {
    match state.selected
    case None => Saved(state, store)
    case Some(mood) =>
      var entry := MoodEntry(DecimalString(nowMillis), mood, SavedNote(state.note), stamp);
      var s := Memory.AddMoodEntry(store, entry);
      assert s.userMemory.value.moodHistory[1..] == Memory.Current(store).moodHistory;
      Saved(InitialTracker, s)
  }

  /** Tapping a mood and saving records exactly that mood, leaving the form closed and empty. */
  lemma SelectThenSave(state: TrackerState, mood: Mood, hasCallback: bool,
                          store: LocalStore, nowMillis: int, stamp: Timestamp)
    ensures var saved := SaveMood(SelectMood(state, mood, hasCallback).state, store, nowMillis, stamp);
            && saved.state == InitialTracker
            && Memory.Current(saved.store).moodHistory[0].mood == mood
            && Memory.Current(saved.store).moodHistory[0].note == SavedNote(state.note)
  {
    var selected := SelectMood(state, mood, hasCallback).state;
    assert selected.selected == Some(mood) && selected.note == state.note;
  }
}

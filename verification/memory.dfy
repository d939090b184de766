/**
 * The user's journal memory and chat transcript in local storage
 * (src/lib/memory.ts). Every mutator re-reads the memory through
 * `initializeMemory`, changes one field and writes the record back.
 */
module Memory {
  import opened Wrappers
  import opened Js
  import opened Types
  import opened Storage

  /** `getMoodEmojis`: the six moods the tracker offers, ids "1" to "6". */
  const MoodEmojis := [
    Mood("1", "\U{1F60A}", "Happy", "bg-eizi-yellow"),
    Mood("2", "\U{1F60C}", "Peaceful", "bg-eizi-teal"),
    Mood("3", "\U{1F610}", "Neutral", "bg-eizi-blue"),
    Mood("4", "\U{1F614}", "Sad", "bg-eizi-purple"),
    Mood("5", "\U{1F621}", "Angry", "bg-eizi-red"),
    Mood("6", "\U{1F630}", "Anxious", "bg-eizi-green")
  ]

  /** The memory written when none is stored yet. */
  const DefaultMemory := UserMemory(None, English, None, None, [], None, None, [])

  datatype Initialized = Initialized(memory: UserMemory, store: LocalStore)

  /** `initializeMemory`: the stored memory, or the default one, which is then stored. */
  function InitializeMemory(store: LocalStore): (r: Initialized)
    ensures store.userMemory.None? ==>
              && r.memory.preferredLanguage == English && r.memory.name.None?
              && r.memory.moodHistory == [] && r.memory.reminders == []
              && r.memory.struggles.None? && r.memory.importantDates.None?
              && r.memory.lastInteraction.None? && r.memory.commonTopics.None?
              && r.store.userMemory == Some(r.memory)
    ensures store.userMemory.Some? ==> r.memory == store.userMemory.value && r.store == store
    ensures r.store.apiConfig == store.apiConfig && r.store.conversations == store.conversations
  {
    match store.userMemory
    case Some(m) => Initialized(m, store)
    case None => Initialized(DefaultMemory, SaveMemory(store, DefaultMemory))
  }

  /** `saveMemory`. */
  function SaveMemory(store: LocalStore, memory: UserMemory): LocalStore {
    store.(userMemory := Some(memory))
  }

  /** The memory every mutator starts from. */
  function Current(store: LocalStore): UserMemory {
    InitializeMemory(store).memory
  }

  /** `addMoodEntry`: the entry goes in front of the history; nothing else changes. */
  function AddMoodEntry(store: LocalStore, entry: MoodEntry): (s: LocalStore)
    ensures s.userMemory.Some?
    ensures s.userMemory.value.moodHistory == [entry] + Current(store).moodHistory
    ensures s.userMemory.value == Current(store).(moodHistory := s.userMemory.value.moodHistory)
    ensures s.apiConfig == store.apiConfig && s.conversations == store.conversations
  {
    var memory := Current(store);
    SaveMemory(store, memory.(moodHistory := [entry] + memory.moodHistory))
  }

  /** `addReminder`: the reminder goes in front of the list; nothing else changes. */
  function AddReminder(store: LocalStore, reminder: Reminder): (s: LocalStore)
    ensures s.userMemory.Some?
    ensures s.userMemory.value.reminders == [reminder] + Current(store).reminders
    ensures s.userMemory.value == Current(store).(reminders := s.userMemory.value.reminders)
    ensures s.apiConfig == store.apiConfig && s.conversations == store.conversations
  {
    var memory := Current(store);
    SaveMemory(store, memory.(reminders := [reminder] + memory.reminders))
  }

  /** The reminder with `completed` negated. */
  function Flip(r: Reminder): Reminder {
    r.(completed := !r.completed)
  }

  /** The `map` inside `toggleReminder`: flips exactly the reminders whose id matches. */
  function ToggleMatching(reminders: seq<Reminder>, id: string): (r: seq<Reminder>)
    ensures |r| == |reminders|
    ensures forall i :: 0 <= i < |r| ==>
              && r[i].id == reminders[i].id && r[i].message == reminders[i].message
              && r[i].timestamp == reminders[i].timestamp
              && (r[i].completed <==> (if reminders[i].id == id then !reminders[i].completed else reminders[i].completed))
  {
    if |reminders| == 0 then []
    else [if reminders[0].id == id then Flip(reminders[0]) else reminders[0]] + ToggleMatching(reminders[1..], id)
  }

  /** Toggling the same id twice gives back the original list. */
  lemma {:induction false} ToggleMatchingTwice(reminders: seq<Reminder>, id: string)
    ensures ToggleMatching(ToggleMatching(reminders, id), id) == reminders
  {
    var r := ToggleMatching(ToggleMatching(reminders, id), id);
    assert |r| == |reminders|;
    forall i | 0 <= i < |r|
      ensures r[i] == reminders[i]
    {
    }
  }

  /** `toggleReminder`: only the matching reminders' `completed` changes. */
  function ToggleReminder(store: LocalStore, id: string): (s: LocalStore)
    ensures s.userMemory.Some?
    ensures s.userMemory.value.reminders == ToggleMatching(Current(store).reminders, id)
    ensures s.userMemory.value == Current(store).(reminders := s.userMemory.value.reminders)
    ensures s.apiConfig == store.apiConfig && s.conversations == store.conversations
  {
    var memory := Current(store);
    SaveMemory(store, memory.(reminders := ToggleMatching(memory.reminders, id)))
  }

  /** Once a memory is stored, toggling the same reminder twice restores the store. */
  lemma ToggleReminderTwice(store: LocalStore, id: string)
    requires store.userMemory.Some?
    ensures ToggleReminder(ToggleReminder(store, id), id) == store
  {
    ToggleMatchingTwice(store.userMemory.value.reminders, id);
  }

  /** `updateUserName`: sets the name; nothing else changes. */
  function UpdateUserName(store: LocalStore, name: string): (s: LocalStore)
    ensures s.userMemory == Some(Current(store).(name := Some(name)))
    ensures s.apiConfig == store.apiConfig && s.conversations == store.conversations
  {
    SaveMemory(store, Current(store).(name := Some(name)))
  }

  /** `updateLanguagePreference`: sets the language; nothing else changes. */
  function UpdateLanguagePreference(store: LocalStore, language: Language): (s: LocalStore)
    ensures s.userMemory == Some(Current(store).(preferredLanguage := language))
    ensures s.apiConfig == store.apiConfig && s.conversations == store.conversations
  {
    SaveMemory(store, Current(store).(preferredLanguage := language))
  }

  /** `getMessages`: the saved transcript, or the empty one when nothing is stored. */
  function GetMessages(store: LocalStore): seq<Message> {
    store.conversations.GetOr([])
  }

  /** `saveMessages`: the next `getMessages` returns exactly `messages`. */
  function SaveMessages(store: LocalStore, messages: seq<Message>): (s: LocalStore)
    ensures GetMessages(s) == messages
    ensures s.apiConfig == store.apiConfig && s.userMemory == store.userMemory
  {
    store.(conversations := Some(messages))
  }

  /** `clearMessages`: the next `getMessages` returns the empty transcript. */
  function ClearMessages(store: LocalStore): (s: LocalStore)
    ensures GetMessages(s) == []
    ensures s.apiConfig == store.apiConfig && s.userMemory == store.userMemory
  {
    store.(conversations := None)
  }

  // ------------------------------------------------------ memory context

  /** The reminders not yet completed, in their stored order. */
  function ActiveReminders(reminders: seq<Reminder>): (r: seq<Reminder>)
    ensures |r| <= |reminders|
    ensures forall x :: x in r <==> x in reminders && !x.completed
  {
    if |reminders| == 0 then []
    else (if reminders[0].completed then [] else [reminders[0]]) + ActiveReminders(reminders[1..])
  }

  const ContextHeader := "User Information:\n"
  const RemindersHeader := "Active Reminders:\n"
  const MaxContextMoods := 5

  function LanguageName(language: Language): string {
    match language
    case English => "English"
    case Taglish => "Taglish"
  }

  /** Whether `memory.name` is truthy. */
  predicate HasName(memory: UserMemory) {
    memory.name.Some? && memory.name.value != ""
  }

  function NameLine(memory: UserMemory): string {
    if HasName(memory) then "Name: " + memory.name.value + "\n" else ""
  }

  /** A "Label: a, b, c" paragraph, present only for a non-empty list. */
  function ListParagraph(title: string, items: Option<seq<string>>): string {
    if items.Some? && |items.value| > 0 then title + ": " + Join(items.value, ", ") + "\n\n" else ""
  }

  function MoodLine(entry: MoodEntry, dateText: Timestamp -> string): string {
    var note := if entry.note.Some? && entry.note.value != "" then " (Note: \"" + entry.note.value + "\")" else "";
    "- " + dateText(entry.timestamp) + ": " + entry.mood.labelText + note + "\n"
  }

  function MoodLines(entries: seq<MoodEntry>, dateText: Timestamp -> string): string {
    if |entries| == 0 then "" else MoodLine(entries[0], dateText) + MoodLines(entries[1..], dateText)
  }

  /** The entries `slice(0, 5)` keeps. */
  function RecentMoods(history: seq<MoodEntry>): seq<MoodEntry> {
    if |history| <= MaxContextMoods then history else history[..MaxContextMoods]
  }

  /** The "Recent Moods" paragraph: present iff there is any history, listing the first five entries. */
  function MoodsBlock(history: seq<MoodEntry>, dateText: Timestamp -> string): (r: string)
    ensures r == "" <==> |history| == 0
  {
    if |history| == 0 then "" else "Recent Moods:\n" + MoodLines(RecentMoods(history), dateText) + "\n"
  }

  function ReminderLines(reminders: seq<Reminder>): string {
    if |reminders| == 0 then "" else "- " + reminders[0].message + "\n" + ReminderLines(reminders[1..])
  }

  /** The "Active Reminders" paragraph: present iff some reminder is not completed. */
  function RemindersBlock(reminders: seq<Reminder>): (r: string)
    ensures r == "" <==> forall i :: 0 <= i < |reminders| ==> reminders[i].completed
    ensures r != "" ==> |r| >= |RemindersHeader| && r[..|RemindersHeader|] == RemindersHeader
  {
    var active := ActiveReminders(reminders);
    if |active| > 0 then
      RemindersHeader + ReminderLines(active)
    else
      assert forall i :: 0 <= i < |reminders| ==> reminders[i] !in active;
      ""
  }

  /** `createMemoryContext` over a given memory; `dateText` is `toLocaleDateString`. */
  function MemoryContext(memory: UserMemory, dateText: Timestamp -> string): (r: string)
    ensures |r| >= |ContextHeader| && r[..|ContextHeader|] == ContextHeader
    ensures HasName(memory) ==>
              var line := "Name: " + memory.name.value + "\n";
              |r| >= |ContextHeader| + |line| && r[|ContextHeader|..|ContextHeader| + |line|] == line
    ensures !HasName(memory) ==>
              var line := "Preferred Language: ";
              |r| >= |ContextHeader| + |line| && r[|ContextHeader|..|ContextHeader| + |line|] == line
    ensures var reminders := RemindersBlock(memory.reminders);
            |r| >= |reminders| && r[|r| - |reminders|..] == reminders
  {
    var rest := LanguageName(memory.preferredLanguage) + "\n\n"
                + ListParagraph("Common Struggles", memory.struggles)
                + MoodsBlock(memory.moodHistory, dateText)
                + ListParagraph("Frequently Discussed Topics", memory.commonTopics);
    var reminders := RemindersBlock(memory.reminders);
    Concat5(ContextHeader, NameLine(memory), "Preferred Language: ", rest, reminders)
  }

  /** A five-part concatenation, and where each part sits in the whole. */
  function Concat5(a: string, b: string, c: string, d: string, e: string): (r: string)
    ensures |r| == |a| + |b| + |c| + |d| + |e|
    ensures r[..|a|] == a
    ensures r[|a|..|a| + |b|] == b
    ensures r[|a| + |b|..|a| + |b| + |c|] == c
    ensures r[|r| - |e|..] == e
  {
    a + b + c + d + e
  }

  /** Only the first five mood entries reach the context: older ones can be anything. */
  lemma ContextIgnoresOlderMoods(memory: UserMemory, older: seq<MoodEntry>, dateText: Timestamp -> string)
    requires |memory.moodHistory| >= MaxContextMoods
    ensures MemoryContext(memory.(moodHistory := memory.moodHistory + older), dateText) == MemoryContext(memory, dateText)
  {
    var h := memory.moodHistory;
    assert RecentMoods(h + older) == RecentMoods(h) by {
      assert (h + older)[..MaxContextMoods] == h[..MaxContextMoods];
    }
    assert MoodsBlock(h + older, dateText) == MoodsBlock(h, dateText);
  }

  /** Completed reminders never reach the context. */
  lemma {:induction false} ContextIgnoresCompleted(memory: UserMemory, dateText: Timestamp -> string)
    ensures MemoryContext(memory.(reminders := ActiveReminders(memory.reminders)), dateText) == MemoryContext(memory, dateText)
  {
    ActiveIdempotent(memory.reminders);
  }

  lemma ActiveIdempotent(reminders: seq<Reminder>)
    ensures ActiveReminders(ActiveReminders(reminders)) == ActiveReminders(reminders)
  {
    var a := ActiveReminders(reminders);
    assert forall i :: 0 <= i < |a| ==> !a[i].completed by {
      forall i | 0 <= i < |a| ensures !a[i].completed {
        assert a[i] in a;
      }
    }
    ActiveOfActive(a);
  }

  lemma {:induction false} ActiveOfActive(reminders: seq<Reminder>)
    requires forall i :: 0 <= i < |reminders| ==> !reminders[i].completed
    ensures ActiveReminders(reminders) == reminders
  {
    if |reminders| > 0 {
      ActiveOfActive(reminders[1..]);
      assert [reminders[0]] + reminders[1..] == reminders;
    }
  }

  datatype Context = Context(text: string, store: LocalStore)

  /** `createMemoryContext`: the context of the current memory; its only write is the default memory. */
  function CreateMemoryContext(store: LocalStore, dateText: Timestamp -> string): (r: Context)
    ensures r.text == MemoryContext(Current(store), dateText)
    ensures store.userMemory.Some? ==> r.store == store
    ensures r.store.apiConfig == store.apiConfig && r.store.conversations == store.conversations
  {
    var init := InitializeMemory(store);
    Context(MemoryContext(init.memory, dateText), init.store)
  }
}

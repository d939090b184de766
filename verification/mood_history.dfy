/**
 * The mood-history card (src/components/MoodHistory.tsx): a chart of the
 * first fourteen entries in time order, and a list of the entries grouped by
 * day, newest day first. Date formatting is locale-dependent, so the day key
 * (`toLocaleDateString()`), the chart label and the time a day key parses back
 * to (`new Date(key).getTime()`) are parameters.
 */
module MoodHistory {
  import opened Wrappers
  import opened Js
  import opened Types
  import opened Storage
  import opened StableSort
  import Memory

  const ChartWindow := 14
  const ListedDays := 7

  /** One point of the area chart. `value` is `None` where `parseInt` gives NaN. */
  datatype ChartPoint = ChartPoint(date: string, value: Option<int>, mood: string, color: string)

  function Stamp(e: MoodEntry): int {
    e.timestamp
  }

  /** `slice(0, 14).sort(by timestamp)`: the chart's entries, on a copy of the history. */
  function ChartEntries(history: seq<MoodEntry>): (r: seq<MoodEntry>)
    ensures |r| <= ChartWindow && |r| == |Take(history, ChartWindow)|
    ensures forall i, j :: 0 <= i < j < |r| ==> r[i].timestamp <= r[j].timestamp
    ensures multiset(r) == multiset(Take(history, ChartWindow))
  {
    SortBy(Take(history, ChartWindow), Stamp)
  }

  /** The chart colour: the Tailwind class with its first `bg-` removed. */
  function ChartColor(mood: Mood): string {
    ReplaceFirst(mood.color, "bg-", "")
  }

  /** `chartData`: one point per chart entry, in time order. */
  function ChartData(history: seq<MoodEntry>, dateLabel: Timestamp -> string): (r: seq<ChartPoint>)
    ensures |r| == |ChartEntries(history)|
    ensures forall i :: 0 <= i < |r| ==>
              var e := ChartEntries(history)[i];
              && r[i].value == ParseInt(e.mood.id) && r[i].mood == e.mood.labelText
              && r[i].color == ChartColor(e.mood) && r[i].date == dateLabel(e.timestamp)
  {
    var entries := ChartEntries(history);
    seq(|entries|, i requires 0 <= i < |entries| =>
      ChartPoint(dateLabel(entries[i].timestamp), ParseInt(entries[i].mood.id),
                 entries[i].mood.labelText, ChartColor(entries[i].mood)))
  }

  /** Entries past the fourteenth never reach the chart. */
  lemma ChartIgnoresOlder(history: seq<MoodEntry>, older: seq<MoodEntry>, dateLabel: Timestamp -> string)
    requires |history| >= ChartWindow
    ensures ChartData(history + older, dateLabel) == ChartData(history, dateLabel)
  {
    assert Take(history + older, ChartWindow) == Take(history, ChartWindow);
  }

  /** A `bg-` class charts as the colour name that follows the prefix. */
  lemma StripsBg(color: string)
    requires |color| >= 3 && color[..3] == "bg-"
    ensures "bg-" + ReplaceFirst(color, "bg-", "") == color
  {
    var rest := color[3..];
    assert color == "bg-" + rest;
    ReplaceLeadingPrefix("bg-", rest);
  }

  /** A one-digit id parses to that digit's value. */
  lemma DigitIdParses(c: char)
    requires '0' <= c <= '9'
    ensures ParseInt([c]) == Some(c as int - '0' as int)
  {
    var n: nat := c as int - '0' as int;
    assert DecimalString(n) == [c];
    ParseIntDecimal(n);
  }

  /** The six tracker moods chart at 1 to 6. */
  lemma MoodIdsOnScale()
    ensures forall m :: m in Memory.MoodEmojis ==> ParseInt(m.id).Some? && 1 <= ParseInt(m.id).value <= 6
  {
    forall m | m in Memory.MoodEmojis
      ensures ParseInt(m.id).Some? && 1 <= ParseInt(m.id).value <= 6
    {
      assert |m.id| == 1 && '1' <= m.id[0] <= '6';
      assert m.id == [m.id[0]];
      DigitIdParses(m.id[0]);
    }
  }

  /** The six tracker moods chart in the colour their `bg-` class names. */
  lemma MoodColorsStripped()
    ensures forall i :: 0 <= i < |Memory.MoodEmojis| ==> "bg-" + ChartColor(Memory.MoodEmojis[i]) == Memory.MoodEmojis[i].color
  {
    var ms := Memory.MoodEmojis;
    forall i | 0 <= i < |ms|
      ensures "bg-" + ChartColor(ms[i]) == ms[i].color
    {
      StripsBg(ms[i].color);
    }
  }

  /** A history of tracker moods charts entirely on the 1..6 scale. */
  lemma ChartOnScale(history: seq<MoodEntry>, dateLabel: Timestamp -> string)
    requires forall e :: e in history ==> e.mood in Memory.MoodEmojis
    ensures forall p :: p in ChartData(history, dateLabel) ==> p.value.Some? && 1 <= p.value.value <= 6
  {
    var entries := ChartEntries(history);
    var r := ChartData(history, dateLabel);
    ChartEntriesFromHistory(history);
    forall p | p in r
      ensures p.value.Some? && 1 <= p.value.value <= 6
    {
      var i :| 0 <= i < |r| && r[i] == p;
      assert entries[i] in entries;
      MoodOnScale(entries[i].mood);
    }
  }

  /** Every charted entry comes from the history. */
  lemma ChartEntriesFromHistory(history: seq<MoodEntry>)
    ensures forall e :: e in ChartEntries(history) ==> e in history
  {
    var window := Take(history, ChartWindow);
    forall e | e in ChartEntries(history)
      ensures e in history
    {
      assert e in multiset(ChartEntries(history));
      assert e in multiset(window);
      assert e in window;
      assert window == history[..|window|];
    }
  }

  /** One tracker mood's id parses to its place on the 1-6 scale. */
  lemma MoodOnScale(m: Mood)
    requires m in Memory.MoodEmojis
    ensures ParseInt(m.id).Some? && 1 <= ParseInt(m.id).value <= 6
  {
    MoodIdsOnScale();
  }

  // ------------------------------------------------------------ grouping by day

  /** One entry of `groupedByDate`: a day key and that day's entries. */
  datatype DayGroup = DayGroup(key: string, entries: seq<MoodEntry>)

  function KeysOf(groups: seq<DayGroup>): (r: seq<string>)
    ensures |r| == |groups| && forall i :: 0 <= i < |groups| ==> r[i] == groups[i].key
  {
    seq(|groups|, i requires 0 <= i < |groups| => groups[i].key)
  }

  ghost predicate Distinct(keys: seq<string>) {
    forall i, j :: 0 <= i < j < |keys| ==> keys[i] != keys[j]
  }

  /** The day keys of `history`, each once, in order of first appearance. */
  function DayKeys(history: seq<MoodEntry>, dayKey: Timestamp -> string): (r: seq<string>)
    ensures Distinct(r)
    ensures forall k :: k in r <==> exists e :: e in history && dayKey(e.timestamp) == k
  {
    if |history| == 0 then []
    else
      var prefix := history[..|history| - 1];
      var last := history[|history| - 1];
      var keys := DayKeys(prefix, dayKey);
      assert forall e :: e in history <==> e in prefix || e == last by {
        assert history == prefix + [last];
      }
      if dayKey(last.timestamp) in keys then keys else keys + [dayKey(last.timestamp)]
  }

  /** The entries of `history` that fall on day `k`, in history order. */
  function OnDay(history: seq<MoodEntry>, dayKey: Timestamp -> string, k: string): seq<MoodEntry> {
    if |history| == 0 then []
    else
      var last := history[|history| - 1];
      OnDay(history[..|history| - 1], dayKey, k) + (if dayKey(last.timestamp) == k then [last] else [])
  }

  /** One step of the `reduce`: append `e` to the group of `key`, opening the group if needed. */
  function Push(groups: seq<DayGroup>, key: string, e: MoodEntry): (r: seq<DayGroup>)
    requires Distinct(KeysOf(groups))
    ensures key in KeysOf(groups) ==>
              && |r| == |groups|
              && forall i :: 0 <= i < |groups| ==>
                   r[i] == if groups[i].key == key then groups[i].(entries := groups[i].entries + [e]) else groups[i]
    ensures key !in KeysOf(groups) ==> r == groups + [DayGroup(key, [e])]
  {
    if |groups| == 0 then [DayGroup(key, [e])]
    else
      assert KeysOf(groups[1..]) == KeysOf(groups)[1..];
      if groups[0].key == key then
        assert key !in KeysOf(groups[1..]);
        [groups[0].(entries := groups[0].entries + [e])] + groups[1..]
      else
        [groups[0]] + Push(groups[1..], key, e)
  }

  /** `groupedByDate` as the object's entries: `reduce` over the history, groups in first-appearance order. */
  function GroupByDay(history: seq<MoodEntry>, dayKey: Timestamp -> string): (r: seq<DayGroup>)
    ensures KeysOf(r) == DayKeys(history, dayKey)
  {
    if |history| == 0 then []
    else
      var prefix := history[..|history| - 1];
      var last := history[|history| - 1];
      Push(GroupByDay(prefix, dayKey), dayKey(last.timestamp), last)
  }

  /**
   * Grouping loses and reorders nothing: there is one group per day of the
   * history, and a day's group is exactly that day's entries in history order.
   */
  lemma {:induction false} GroupByDayContents(history: seq<MoodEntry>, dayKey: Timestamp -> string)
    ensures forall g :: g in GroupByDay(history, dayKey) ==> g.entries == OnDay(history, dayKey, g.key)
  {
    if |history| > 0 {
      var prefix := history[..|history| - 1];
      var last := history[|history| - 1];
      var k := dayKey(last.timestamp);
      var before := GroupByDay(prefix, dayKey);
      GroupByDayContents(prefix, dayKey);
      var r := GroupByDay(history, dayKey);
      forall i | 0 <= i < |r|
        ensures r[i].entries == OnDay(history, dayKey, r[i].key)
      {
        if i < |before| {
          assert before[i] in before;
        } else {
          assert k !in DayKeys(prefix, dayKey);
          OnDayNone(prefix, dayKey, k);
        }
      }
    }
  }

  lemma {:induction false} OnDayNone(history: seq<MoodEntry>, dayKey: Timestamp -> string, k: string)
    requires forall e :: e in history ==> dayKey(e.timestamp) != k
    ensures OnDay(history, dayKey, k) == []
  {
    if |history| > 0 {
      assert history[|history| - 1] in history;
      OnDayNone(history[..|history| - 1], dayKey, k);
    }
  }

  /** Each entry sits in the group of its own day. */
  lemma EntryInItsGroup(history: seq<MoodEntry>, dayKey: Timestamp -> string, e: MoodEntry)
    requires e in history
    ensures exists g :: g in GroupByDay(history, dayKey) && g.key == dayKey(e.timestamp) && e in g.entries
  {
    var groups := GroupByDay(history, dayKey);
    var keys := KeysOf(groups);
    var k := dayKey(e.timestamp);
    assert k in keys;
    var i :| 0 <= i < |keys| && keys[i] == k;
    GroupByDayContents(history, dayKey);
    assert groups[i] in groups;
    OnDayHas(history, dayKey, e);
  }

  lemma {:induction false} OnDayHas(history: seq<MoodEntry>, dayKey: Timestamp -> string, e: MoodEntry)
    requires e in history
    ensures e in OnDay(history, dayKey, dayKey(e.timestamp))
  {
    var prefix := history[..|history| - 1];
    assert history == prefix + [history[|history| - 1]];
    if e != history[|history| - 1] {
      OnDayHas(prefix, dayKey, e);
    }
  }

  /** A day's time as `new Date(key).getTime()` yields it, negated for a newest-first sort. */
  function Newest(dayValue: string -> int): DayGroup -> int {
    (g: DayGroup) => -dayValue(g.key)
  }

  /**
   * `dateEntries`: the groups, newest day first, at most seven of them. The
   * listed groups are taken from the input without repetition, and every group
   * left out is no newer than any group listed.
   */
  function DateEntries(groups: seq<DayGroup>, dayValue: string -> int): (r: seq<DayGroup>)
    ensures |r| == |Take(groups, ListedDays)| && |r| <= ListedDays
    ensures forall i, j :: 0 <= i < j < |r| ==> dayValue(r[i].key) >= dayValue(r[j].key)
    ensures multiset(r) <= multiset(groups)
    ensures forall g, h :: g in groups && g !in r && h in r ==> dayValue(g.key) <= dayValue(h.key)
  {
    var sorted := SortBy(groups, Newest(dayValue));
    var r := Take(sorted, ListedDays);
    NewestListed(groups, sorted, dayValue, r);
    r
  }

  /** A prefix of a newest-first permutation of `groups` lists the newest groups, newest first. */
  lemma NewestListed(groups: seq<DayGroup>, sorted: seq<DayGroup>, dayValue: string -> int, r: seq<DayGroup>)
    requires SortedBy(sorted, Newest(dayValue)) && multiset(sorted) == multiset(groups)
    requires |r| <= |sorted| && r == sorted[..|r|]
    ensures forall i, j :: 0 <= i < j < |r| ==> dayValue(r[i].key) >= dayValue(r[j].key)
    ensures multiset(r) <= multiset(groups)
    ensures forall g, h :: g in groups && g !in r && h in r ==> dayValue(g.key) <= dayValue(h.key)
  {
    assert sorted == r + sorted[|r|..];
    forall i, j | 0 <= i < j < |r|
      ensures dayValue(r[i].key) >= dayValue(r[j].key)
    {
      assert Newest(dayValue)(sorted[i]) <= Newest(dayValue)(sorted[j]);
    }
    forall g, h | g in groups && g !in r && h in r
      ensures dayValue(g.key) <= dayValue(h.key)
    {
      assert g in multiset(sorted);
      var p :| 0 <= p < |sorted| && sorted[p] == g;
      var q :| 0 <= q < |r| && r[q] == h;
      assert p >= |r|;
      assert Newest(dayValue)(sorted[q]) <= Newest(dayValue)(sorted[p]);
    }
  }

  /** What the card shows, and the store after its `initializeMemory` call. */
  datatype HistoryView = HistoryView(
    chart: seq<ChartPoint>,
    days: seq<DayGroup>,
    rendersHistory: bool,
    store: LocalStore)

  /** The whole card: the chart and the list appear only when there are at least two chart points. */
  function ViewMoodHistory(store: LocalStore, dateLabel: Timestamp -> string,
                           dayKey: Timestamp -> string, dayValue: string -> int): (v: HistoryView)
    ensures v.chart == ChartData(Memory.Current(store).moodHistory, dateLabel)
    ensures v.days == DateEntries(GroupByDay(Memory.Current(store).moodHistory, dayKey), dayValue)
    ensures v.rendersHistory <==> |Memory.Current(store).moodHistory| > 1
    ensures store.userMemory.Some? ==> v.store == store
    ensures store.userMemory.None? ==>
              v.chart == [] && v.days == [] && !v.rendersHistory
              && v.store.userMemory.Some? && v.store.userMemory.value.moodHistory == []
    ensures |v.days| <= ListedDays
  {
    var init := Memory.InitializeMemory(store);
    var history := init.memory.moodHistory;
    var chart := ChartData(history, dateLabel);
    HistoryView(chart, DateEntries(GroupByDay(history, dayKey), dayValue), |chart| > 1, init.store)
  }
}

/** The scheduling screen's helpers: which posts fall on a day, the 42-cell
    month grid, the default time of a new post, and the default prompt. */
module Posts {
  import opened Wrappers
  import opened Models
  import opened Seqs
  import opened Dates
  import Api

  /** When a post is scheduled: its `scheduled_for` read with fractional
      seconds first, then without. */
  function ScheduledInstant(p: ScheduledPost, parsers: Parsers): (r: Option<int>)
    ensures parsers.fractional(p.scheduledFor).Some? ==> r == parsers.fractional(p.scheduledFor)
    ensures parsers.fractional(p.scheduledFor).None? ==> r == parsers.internet(p.scheduledFor)
  {
    match parsers.fractional(p.scheduledFor)
    case Some(t) => Some(t)
    case None => parsers.internet(p.scheduledFor)
  }

  /** A post is on `day` when its time is readable and falls on that day. */
  predicate IsOnDay(p: ScheduledPost, day: int, parsers: Parsers) {
    match ScheduledInstant(p, parsers)
    case None => false
    case Some(t) => DayOf(t) == day
  }

  function OnDay(day: int, parsers: Parsers): ScheduledPost -> bool {
    (p: ScheduledPost) => IsOnDay(p, day, parsers)
  }

  /** `postsForSelectedDate`: nothing without a selection; otherwise the
      posts on the selected day, in list order, each as often as listed. */
  function PostsForSelectedDate(posts: seq<ScheduledPost>, selected: Option<int>, parsers: Parsers): (r: seq<ScheduledPost>)
    ensures selected.None? ==> r == []
    ensures selected.Some? ==> forall p :: multiset(r)[p] ==
                                  if IsOnDay(p, DayOf(selected.value), parsers) then multiset(posts)[p] else 0
    ensures selected.Some? ==> forall i :: 0 <= i < |r| ==>
      ScheduledInstant(r[i], parsers).Some? && DayOf(ScheduledInstant(r[i], parsers).value) == DayOf(selected.value)
  {
    match selected
    case None => []
    case Some(d) =>
      FilterCountAll(posts, OnDay(DayOf(d), parsers));
      Filter(posts, OnDay(DayOf(d), parsers))
  }

  /** `CalendarGridView.hasPostOnDate`. */
  predicate HasPostOnDate(posts: seq<ScheduledPost>, date: int, parsers: Parsers) {
    exists i :: 0 <= i < |posts| && IsOnDay(posts[i], DayOf(date), parsers)
  }

  /** The grid's dot and the list agree: a day shows a dot exactly when
      selecting it would list at least one post. */
  lemma HasPostIffListed(posts: seq<ScheduledPost>, date: int, parsers: Parsers)
    ensures HasPostOnDate(posts, date, parsers) <==> PostsForSelectedDate(posts, Some(date), parsers) != []
  {
    FilterEmpty(posts, OnDay(DayOf(date), parsers));
  }

  /** A post whose time neither format reads is on no day. */
  lemma UnreadablePostNeverListed(posts: seq<ScheduledPost>, p: ScheduledPost, selected: Option<int>, parsers: Parsers)
    requires parsers.fractional(p.scheduledFor).None? && parsers.internet(p.scheduledFor).None?
    ensures p !in PostsForSelectedDate(posts, selected, parsers)
  {
    var r := PostsForSelectedDate(posts, selected, parsers);
    if selected.Some? {
      assert multiset(r)[p] == 0;
    }
  }

  // ---------------------------------------------------------------------
  // CalendarGridView.daysInMonth

  /** What Foundation reports for the shown month: its first day, its
      length in days, and how many days of the first week precede it. */
  datatype MonthInterval = MonthInterval(firstDay: int, length: nat, leading: nat)

  /** A month of the Gregorian calendar with weeks of seven days. */
  predicate ValidMonth(m: MonthInterval) {
    28 <= m.length <= 31 && m.leading <= 6
  }

  /** Six weeks of cells. */
  const GridCells: nat := 42

  predicate InMonth(m: MonthInterval, day: int) {
    m.firstDay <= day < m.firstDay + m.length
  }

  /** The day shown in cell `i`: the grid starts on the first day of the
      week that contains the 1st. */
  function CellDay(m: MonthInterval, i: int): int {
    m.firstDay - m.leading + i
  }

  /** `daysInMonth`: no cells when Foundation has no interval for the month;
      otherwise 42 cells, where a cell holds the start of its day when that
      day is in the month and is empty otherwise. */
  method DaysInMonth(month: Option<MonthInterval>) returns (days: seq<Option<int>>)
    ensures month.None? ==> days == []
    ensures month.Some? ==> |days| == GridCells
    ensures month.Some? ==> forall i :: 0 <= i < |days| ==>
      days[i] == if InMonth(month.value, CellDay(month.value, i)) then Some(StartOfDay(CellDay(month.value, i))) else None
  {
    if month.None? {
      return [];
    }
    var m := month.value;
    days := [];
    var date := StartOfDay(CellDay(m, 0));
    while |days| < GridCells
      invariant |days| <= GridCells
      invariant date == StartOfDay(CellDay(m, |days|))
      invariant forall i :: 0 <= i < |days| ==>
        days[i] == if InMonth(m, CellDay(m, i)) then Some(StartOfDay(CellDay(m, i))) else None
      decreases GridCells - |days|
    {
      DayOfOffset(CellDay(m, |days|), 0);
      if InMonth(m, DayOf(date)) {
        days := days + [Some(date)];
      } else {
        days := days + [None];
      }
      date := date + SecondsPerDay;
    }
  }

  /** For a real month the filled cells are exactly its days: the 1st sits
      in the column after the leading days, the days follow one per cell,
      consecutive and increasing, and every other cell is empty. */
  lemma GridShowsMonth(m: MonthInterval, days: seq<Option<int>>)
    requires ValidMonth(m)
    requires |days| == GridCells
    requires forall i :: 0 <= i < |days| ==>
      days[i] == if InMonth(m, CellDay(m, i)) then Some(StartOfDay(CellDay(m, i))) else None
    ensures forall i :: 0 <= i < |days| ==> (days[i].Some? <==> m.leading <= i < m.leading + m.length)
    ensures forall i :: m.leading <= i < m.leading + m.length ==> days[i] == Some(StartOfDay(m.firstDay + (i - m.leading)))
    ensures forall i, j :: 0 <= i < j < |days| && days[i].Some? && days[j].Some? ==>
      days[j].value - days[i].value == (j - i) * SecondsPerDay
    ensures DayOf(StartOfDay(CellDay(m, 0))) == m.firstDay - m.leading
  {
    DayOfOffset(CellDay(m, 0), 0);
  }

  // ---------------------------------------------------------------------
  // AddPostView.init

  const Noon: int := 12 * SecondsPerHour

  /** The noon of the day an instant falls on. */
  function NoonOf(t: int): int {
    StartOfDay(DayOf(t)) + Noon
  }

  /** The default schedule time of a new post: a day before today becomes
      today; the time is set to 12:00:00; a noon not after `now` moves one
      day on. */
  function DefaultScheduleDate(initial: int, now: int): int {
    var base := if StartOfDay(DayOf(initial)) < StartOfDay(DayOf(now)) then now else initial;
    var noon := NoonOf(base);
    if noon <= now then noon + SecondsPerDay else noon
  }

  /** The default is always a noon strictly in the future. It is noon on the
      initial day when that day is after today, and otherwise the first noon
      after `now`: no noon between `now` and it is skipped. A past initial
      day behaves as today. */
  lemma {:induction false} DefaultScheduleIsNextNoon(initial: int, now: int)
    ensures var r := DefaultScheduleDate(initial, now);
      && r > now
      && r % SecondsPerDay == Noon
      && (DayOf(initial) > DayOf(now) ==> r == NoonOf(initial))
      && (DayOf(initial) <= DayOf(now) ==>
            forall d: int {:trigger StartOfDay(d)} :: StartOfDay(d) + Noon > now ==> r <= StartOfDay(d) + Noon)
    ensures DayOf(initial) < DayOf(now) ==> DefaultScheduleDate(initial, now) == DefaultScheduleDate(now, now)
  {
    var r := DefaultScheduleDate(initial, now);
    var today := DayOf(now);
    DayBounds(now);
    DayBounds(initial);
    if DayOf(initial) > today {
      assert StartOfDay(DayOf(initial)) >= StartOfDay(today + 1);
      assert r == NoonOf(initial);
    } else {
      var noon := StartOfDay(today) + Noon;
      if DayOf(initial) < today {
        assert StartOfDay(DayOf(initial)) < StartOfDay(today);
      }
      assert NoonOf(if StartOfDay(DayOf(initial)) < StartOfDay(today) then now else initial) == noon;
      assert r == if noon <= now then noon + SecondsPerDay else noon;
      forall d: int | StartOfDay(d) + Noon > now
        ensures r <= StartOfDay(d) + Noon
      {
        if d > today {
          assert StartOfDay(d) >= StartOfDay(today) + SecondsPerDay;
        }
      }
    }
    assert r == StartOfDay(DayOf(r)) + Noon by {
      DayOfOffset(DayOf(r) , Noon);
    }
  }

  // ---------------------------------------------------------------------
  // AddPostView.loadPrompts

  /** `prompts.first(where: { $0.is_default })`. */
  function FirstDefault(prompts: seq<Prompt>): (r: Option<Prompt>)
    ensures r.None? <==> forall i :: 0 <= i < |prompts| ==> !prompts[i].isDefault
    ensures r.Some? ==> exists i :: (0 <= i < |prompts| && prompts[i] == r.value && r.value.isDefault &&
                                     forall j :: 0 <= j < i ==> !prompts[j].isDefault)
  {
    if |prompts| == 0 then None
    else if prompts[0].isDefault then Some(prompts[0])
    else
      var rest := FirstDefault(prompts[1..]);
      assert forall i :: 0 <= i < |prompts[1..]| ==> prompts[1..][i] == prompts[i + 1];
      if rest.Some? then
        assert exists i :: (0 <= i < |prompts| && prompts[i] == rest.value && rest.value.isDefault &&
                            forall j :: 0 <= j < i ==> !prompts[j].isDefault) by {
          var k :| 0 <= k < |prompts[1..]| && prompts[1..][k] == rest.value && rest.value.isDefault &&
            forall j :: 0 <= j < k ==> !prompts[1..][j].isDefault;
          assert prompts[k + 1] == rest.value;
          assert forall j :: 1 <= j < k + 1 ==> !prompts[j].isDefault by {
            forall j | 1 <= j < k + 1 ensures !prompts[j].isDefault {
              assert prompts[1..][j - 1] == prompts[j];
            }
          }
        }
        rest
      else
        rest
  }

  /** The prompt preselected after loading: the first default one, else the
      first one, else none. */
  function DefaultPrompt(prompts: seq<Prompt>): Option<Prompt> {
    match FirstDefault(prompts)
    case Some(p) => Some(p)
    case None => if |prompts| > 0 then Some(prompts[0]) else None
  }

  /** The preselection is empty only for an empty list; it is the earliest
      default prompt when there is one and the first prompt otherwise. */
  lemma DefaultPromptChoice(prompts: seq<Prompt>)
    ensures DefaultPrompt(prompts).None? <==> |prompts| == 0
    ensures DefaultPrompt(prompts).Some? ==> DefaultPrompt(prompts).value in prompts
    ensures (exists i :: 0 <= i < |prompts| && prompts[i].isDefault) ==>
      DefaultPrompt(prompts).value.isDefault &&
      exists i :: 0 <= i < |prompts| && prompts[i] == DefaultPrompt(prompts).value &&
        forall j :: 0 <= j < i ==> !prompts[j].isDefault
    ensures |prompts| > 0 && (forall i :: 0 <= i < |prompts| ==> !prompts[i].isDefault) ==>
      DefaultPrompt(prompts) == Some(prompts[0])
  {
  }

  /** The prompt picker's state in `AddPostView`. */
  datatype PromptPicker = PromptPicker(prompts: seq<Prompt>, selectedPrompt: Option<Prompt>)

  /** `loadPrompts`: a loaded list replaces the old one and is preselected
      from; a failure is silent and changes nothing. */
  function LoadPrompts(s: PromptPicker, response: Result<seq<Prompt>, Api.Thrown>): (r: PromptPicker)
    ensures response.Err? ==> r == s
    ensures response.Ok? ==> r.prompts == response.value && r.selectedPrompt == DefaultPrompt(response.value)
  {
    match response
    case Ok(ps) => PromptPicker(ps, DefaultPrompt(ps))
    case Err(_) => s
  }
}

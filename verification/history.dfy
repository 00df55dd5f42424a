/** `HistoryStore`: the history feed merged from replies, completed
    calendar tasks and scheduled posts, its type filter, its per-type
    counts and its loading state; plus the posted state of one history card. */
module History {
  import opened Wrappers
  import opened Models
  import opened Seqs

  /** `HistoryItemType`. */
  datatype ItemType = Reply | Task | Scheduled

  const AllTypes: set<ItemType> := {Reply, Task, Scheduled}

  /** The fields of `UnifiedHistoryItem` the store and the card read.
      `createdAt` and `postedAt` are instants. */
  datatype UnifiedItem = UnifiedItem(
    id: string,
    kind: ItemType,
    content: string,
    platform: string,
    createdAt: int,
    postedAt: Option<int>,
    postedPlatform: Option<string>)

  /** The three `UnifiedHistoryItem.from(...)` mappers. Their bodies are not
      part of this model, so they are supplied by the caller. */
  datatype Mappers = Mappers(
    fromReply: HistoryItem -> UnifiedItem,
    fromTask: CalendarTask -> UnifiedItem,
    fromScheduled: ScheduledPost -> UnifiedItem)

  /** Each mapper tags its items with its own source's type. */
  ghost predicate WellTagged(m: Mappers) {
    && (forall h :: m.fromReply(h).kind == Reply)
    && (forall t :: m.fromTask(t).kind == Task)
    && (forall p :: m.fromScheduled(p).kind == Scheduled)
  }

  /** The store's published state. */
  datatype Store = Store(
    allItems: seq<UnifiedItem>,
    isLoading: bool,
    hasLoaded: bool,
    selectedFilters: set<ItemType>)

  /** The shared store as first created: empty, idle, every type selected. */
  function InitialStore(): Store {
    Store([], false, false, AllTypes)
  }

  function Selected(sel: set<ItemType>): UnifiedItem -> bool {
    (x: UnifiedItem) => x.kind in sel
  }

  function OfKind(t: ItemType): UnifiedItem -> bool {
    (x: UnifiedItem) => x.kind == t
  }

  /** Sorting on this key ascending puts the newest item first. */
  function NewestFirst(x: UnifiedItem): int {
    -x.createdAt
  }

  /** `filteredItems`: the items of a selected type, each as often as it
      occurs in `allItems`, newest first. */
  function FilteredItems(s: Store): (r: seq<UnifiedItem>)
    ensures forall x :: multiset(r)[x] == if x.kind in s.selectedFilters then multiset(s.allItems)[x] else 0
    ensures forall i, j :: 0 <= i < j < |r| ==> r[i].createdAt >= r[j].createdAt
  {
    var kept := Filter(s.allItems, Selected(s.selectedFilters));
    FilterCountAll(s.allItems, Selected(s.selectedFilters));
    var sorted := SortBy(kept, NewestFirst);
    assert multiset(sorted) == multiset(kept);
    NewestFirstOrder(sorted);
    sorted
  }

  lemma NewestFirstOrder(r: seq<UnifiedItem>)
    requires SortedBy(r, NewestFirst)
    ensures forall i, j :: 0 <= i < j < |r| ==> r[i].createdAt >= r[j].createdAt
  {
    forall i, j | 0 <= i < j < |r|
      ensures r[i].createdAt >= r[j].createdAt
    {
      assert NewestFirst(r[i]) <= NewestFirst(r[j]);
    }
  }

  /** With every type selected the feed is a reordering of `allItems`: nothing
      is lost or duplicated. */
  lemma FilteredAllIsPermutation(s: Store)
    requires s.selectedFilters == AllTypes
    ensures multiset(FilteredItems(s)) == multiset(s.allItems)
    ensures |FilteredItems(s)| == |s.allItems|
  {
    var r := FilteredItems(s);
    assert forall x :: multiset(r)[x] == multiset(s.allItems)[x] by {
      forall x ensures multiset(r)[x] == multiset(s.allItems)[x] {
        assert x.kind == Reply || x.kind == Task || x.kind == Scheduled;
      }
    }
    assert multiset(r) == multiset(s.allItems);
    assert |multiset(r)| == |r|;
  }

  /** An item is in the feed exactly when it is loaded and of a selected type. */
  lemma FilteredMembership(s: Store, x: UnifiedItem)
    ensures x in FilteredItems(s) <==> x in s.allItems && x.kind in s.selectedFilters
  {
    var r := FilteredItems(s);
    assert x in r <==> multiset(r)[x] > 0;
    assert x in s.allItems <==> multiset(s.allItems)[x] > 0;
  }

  /** `repliesCount`, `tasksCount`, `scheduledCount`: items of one type in
      `allItems`, whatever the filter. */
  function CountOf(items: seq<UnifiedItem>, t: ItemType): nat {
    |Filter(items, OfKind(t))|
  }

  function RepliesCount(s: Store): nat { CountOf(s.allItems, Reply) }
  function TasksCount(s: Store): nat { CountOf(s.allItems, Task) }
  function ScheduledCount(s: Store): nat { CountOf(s.allItems, Scheduled) }

  /** The three counts split `allItems`, and changing the selection moves
      none of them. */
  lemma {:induction false} CountsPartitionItems(s: Store, sel: set<ItemType>)
    ensures RepliesCount(s) + TasksCount(s) + ScheduledCount(s) == |s.allItems|
    ensures RepliesCount(s.(selectedFilters := sel)) == RepliesCount(s)
    ensures TasksCount(s.(selectedFilters := sel)) == TasksCount(s)
    ensures ScheduledCount(s.(selectedFilters := sel)) == ScheduledCount(s)
  {
    CountsSum(s.allItems);
  }

  lemma {:induction false} CountsSum(items: seq<UnifiedItem>)
    ensures CountOf(items, Reply) + CountOf(items, Task) + CountOf(items, Scheduled) == |items|
  {
    if |items| > 0 {
      CountsSum(items[1..]);
    }
  }

  /** The feed shows as many items of a type as the count says when that
      type is selected, and none otherwise. */
  lemma FilteredCountOfType(s: Store, t: ItemType)
    ensures CountOf(FilteredItems(s), t) == if t in s.selectedFilters then CountOf(s.allItems, t) else 0
  {
    var r := FilteredItems(s);
    var p := OfKind(t);
    var a := Filter(r, p);
    var b := Filter(s.allItems, p);
    if t in s.selectedFilters {
      forall x ensures multiset(a)[x] == multiset(b)[x] {
        FilterCount(r, p, x);
        FilterCount(s.allItems, p, x);
      }
      assert multiset(a) == multiset(b);
      assert |a| == |multiset(a)| == |multiset(b)| == |b|;
    } else {
      forall x ensures multiset(a)[x] == 0 {
        FilterCount(r, p, x);
      }
      assert multiset(a) == multiset{};
      assert |a| == |multiset(a)|;
    }
  }

  /** `toggleFilter`: add an unselected type; drop a selected one unless it
      is the only one left. */
  function ToggleFilter(sel: set<ItemType>, t: ItemType): (r: set<ItemType>)
    ensures sel != {} ==> r != {}
    ensures t !in sel ==> r == sel + {t}
    ensures t in sel && |sel| > 1 ==> r == sel - {t}
    ensures sel == {t} ==> r == sel
    ensures forall u :: u != t ==> (u in r <==> u in sel)
  {
    if t in sel then (if |sel| > 1 then (RemoveOne(sel, t); sel - {t}) else sel) else sel + {t}
  }

  lemma RemoveOne<T>(a: set<T>, t: T)
    requires t in a
    ensures |a - {t}| == |a| - 1
  {
    assert a == (a - {t}) + {t};
  }

  /** The same toggle twice restores any non-empty selection, including a
      lone survivor that the first toggle refused to drop. */
  lemma ToggleFilterTwice(sel: set<ItemType>, t: ItemType)
    requires sel != {}
    ensures ToggleFilter(ToggleFilter(sel, t), t) == sel
  {
    if t !in sel {
      var u :| u in sel;
      assert u != t;
      assert {u, t} <= sel + {t};
      assert |{u, t}| == 2;
      assert |sel + {t}| >= 2 by {
        SubsetCard({u, t}, sel + {t});
      }
    }
  }

  lemma SubsetCard<T>(a: set<T>, b: set<T>)
    requires a <= b
    ensures |a| <= |b|
  {
    assert b == a + (b - a);
  }

  /** Toggles applied one after another. */
  function ToggleAll(sel: set<ItemType>, ts: seq<ItemType>): set<ItemType>
    decreases |ts|
  {
    if |ts| == 0 then sel else ToggleAll(ToggleFilter(sel, ts[0]), ts[1..])
  }

  /** No sequence of taps can empty the selection. */
  lemma {:induction false} ToggleAllNeverEmpty(sel: set<ItemType>, ts: seq<ItemType>)
    requires sel != {}
    ensures ToggleAll(sel, ts) != {}
    decreases |ts|
  {
    if |ts| > 0 {
      ToggleAllNeverEmpty(ToggleFilter(sel, ts[0]), ts[1..]);
    }
  }

  /** Deselecting every type from the default selection leaves the last one. */
  lemma DeselectEverything()
    ensures ToggleAll(AllTypes, [Reply, Task, Scheduled]) == {Scheduled}
  {
    assert ToggleFilter(AllTypes, Reply) == {Task, Scheduled};
    assert |{Task, Scheduled}| == 2;
    assert ToggleFilter({Task, Scheduled}, Task) == {Scheduled};
    assert ToggleFilter({Scheduled}, Scheduled) == {Scheduled};
    assert [Reply, Task, Scheduled][1..] == [Task, Scheduled];
    assert [Task, Scheduled][1..] == [Scheduled];
  }

  // ---------------------------------------------------------------------
  // Loading

  /** `loadReplies`: every fetched reply record, mapped; nothing on failure. */
  function ReplyItems(replies: Option<seq<HistoryItem>>, m: Mappers): (r: seq<UnifiedItem>)
    ensures replies.None? ==> r == []
    ensures replies.Some? ==> |r| == |replies.value|
    ensures replies.Some? ==> forall i :: 0 <= i < |r| ==> r[i] == m.fromReply(replies.value[i])
  {
    match replies
    case None => []
    case Some(rs) => seq(|rs|, i requires 0 <= i < |rs| => m.fromReply(rs[i]))
  }

  /** A task belongs in the history once it is completed and has content. */
  predicate IsHistoryTask(t: CalendarTask) {
    t.isCompleted && t.generatedContent.Some?
  }

  /** The task filter of `loadTasks`: completed tasks with content, in the
      order fetched, each as often as it was fetched. */
  function HistoryTasks(tasks: seq<CalendarTask>): (r: seq<CalendarTask>)
    ensures forall t :: multiset(r)[t] == if IsHistoryTask(t) then multiset(tasks)[t] else 0
    ensures forall i :: 0 <= i < |r| ==> r[i].isCompleted && r[i].generatedContent.Some?
  {
    FilterCountAll(tasks, IsHistoryTask);
    Filter(tasks, IsHistoryTask)
  }

  /** `loadTasks`: the history tasks, mapped; nothing on failure. */
  function TaskItems(tasks: Option<seq<CalendarTask>>, m: Mappers): (r: seq<UnifiedItem>)
    ensures tasks.None? ==> r == []
    ensures tasks.Some? ==> |r| == |HistoryTasks(tasks.value)|
    ensures tasks.Some? ==> forall i :: 0 <= i < |r| ==> r[i] == m.fromTask(HistoryTasks(tasks.value)[i])
  {
    match tasks
    case None => []
    case Some(ts) =>
      var kept := HistoryTasks(ts);
      seq(|kept|, i requires 0 <= i < |kept| => m.fromTask(kept[i]))
  }

  /** `loadScheduled`: every fetched post, mapped; nothing on failure. */
  function ScheduledItems(posts: Option<seq<ScheduledPost>>, m: Mappers): (r: seq<UnifiedItem>)
    ensures posts.None? ==> r == []
    ensures posts.Some? ==> |r| == |posts.value|
    ensures posts.Some? ==> forall i :: 0 <= i < |r| ==> r[i] == m.fromScheduled(posts.value[i])
  {
    match posts
    case None => []
    case Some(ps) => seq(|ps|, i requires 0 <= i < |ps| => m.fromScheduled(ps[i]))
  }

  /** The guard at the top of `loadAllHistory`: a call while a load is in
      flight does nothing; otherwise the store is marked loading. The flag
      says whether the fetches were started. */
  function BeginLoad(s: Store): (r: (bool, Store))
    ensures s.isLoading ==> r == (false, s)
    ensures !s.isLoading ==> r.0 && r.1 == s.(isLoading := true)
  {
    if s.isLoading then (false, s) else (true, s.(isLoading := true))
  }

  /** The end of `loadAllHistory`, once the three fetches have returned:
      the merged items replace the old ones. */
  function FinishLoad(s: Store, replies: Option<seq<HistoryItem>>, tasks: Option<seq<CalendarTask>>,
                      posts: Option<seq<ScheduledPost>>, m: Mappers): Store
  {
    s.(allItems := ReplyItems(replies, m) + TaskItems(tasks, m) + ScheduledItems(posts, m),
       isLoading := false, hasLoaded := true)
  }

  /** `loadAllHistory`, with each source's outcome given (`None` for a
      source whose request threw). */
  function LoadAllHistory(s: Store, replies: Option<seq<HistoryItem>>, tasks: Option<seq<CalendarTask>>,
                          posts: Option<seq<ScheduledPost>>, m: Mappers): (r: Store)
    ensures s.isLoading ==> r == s
    ensures !s.isLoading ==> !r.isLoading && r.hasLoaded && r.selectedFilters == s.selectedFilters
    ensures !s.isLoading ==> r.allItems == ReplyItems(replies, m) + TaskItems(tasks, m) + ScheduledItems(posts, m)
  {
    var (started, loading) := BeginLoad(s);
    if started then FinishLoad(loading, replies, tasks, posts, m) else s
  }

  /** A refresh that arrives while a load is in flight fetches nothing and
      changes nothing; and a completed load forgets the previous items. */
  lemma OverlappingLoadIgnored(s: Store, replies: Option<seq<HistoryItem>>, tasks: Option<seq<CalendarTask>>,
                               posts: Option<seq<ScheduledPost>>, m: Mappers, old': seq<UnifiedItem>)
    requires !s.isLoading
    ensures var (started, inFlight) := BeginLoad(s);
      started && LoadAllHistory(inFlight, replies, tasks, posts, m) == inFlight
    ensures LoadAllHistory(s.(allItems := old'), replies, tasks, posts, m) == LoadAllHistory(s, replies, tasks, posts, m)
  {
  }

  /** After a load, the items of each type are exactly that source's
      contribution, in fetched order, so each count is that source's size and
      a failed source shows no items at all. */
  lemma LoadedItemsBySource(s: Store, replies: Option<seq<HistoryItem>>, tasks: Option<seq<CalendarTask>>,
                            posts: Option<seq<ScheduledPost>>, m: Mappers)
    requires !s.isLoading && WellTagged(m)
    ensures var r := LoadAllHistory(s, replies, tasks, posts, m);
      && Filter(r.allItems, OfKind(Reply)) == ReplyItems(replies, m)
      && Filter(r.allItems, OfKind(Task)) == TaskItems(tasks, m)
      && Filter(r.allItems, OfKind(Scheduled)) == ScheduledItems(posts, m)
    ensures var r := LoadAllHistory(s, replies, tasks, posts, m);
      && RepliesCount(r) == (if replies.Some? then |replies.value| else 0)
      && TasksCount(r) == (if tasks.Some? then |HistoryTasks(tasks.value)| else 0)
      && ScheduledCount(r) == (if posts.Some? then |posts.value| else 0)
  {
    var a := ReplyItems(replies, m);
    var b := TaskItems(tasks, m);
    var c := ScheduledItems(posts, m);
    SourceOfKind(a, b, c, Reply);
    SourceOfKind(a, b, c, Task);
    SourceOfKind(a, b, c, Scheduled);
  }

  /** Filtering a merge of three single-kind runs by kind picks one run. */
  lemma SourceOfKind(a: seq<UnifiedItem>, b: seq<UnifiedItem>, c: seq<UnifiedItem>, t: ItemType)
    requires forall i :: 0 <= i < |a| ==> a[i].kind == Reply
    requires forall i :: 0 <= i < |b| ==> b[i].kind == Task
    requires forall i :: 0 <= i < |c| ==> c[i].kind == Scheduled
    ensures Filter(a + b + c, OfKind(t)) == if t == Reply then a else if t == Task then b else c
  {
    var p := OfKind(t);
    FilterConcat(a + b, c, p);
    FilterConcat(a, b, p);
    var fa, fb, fc := Filter(a, p), Filter(b, p), Filter(c, p);
    KindFilter(a, Reply, t);
    KindFilter(b, Task, t);
    KindFilter(c, Scheduled, t);
    assert Filter(a + b + c, p) == fa + fb + fc;
    match t {
      case Reply => assert fa + fb + fc == a + [] + [] == a;
      case Task => assert fa + fb + fc == [] + b + [] == b;
      case Scheduled => assert fa + fb + fc == [] + [] + c == c;
    }
  }

  /** Items all of one kind pass the filter for that kind whole, and are all
      dropped by the filter for any other kind. */
  lemma KindFilter(s: seq<UnifiedItem>, k: ItemType, t: ItemType)
    requires forall i :: 0 <= i < |s| ==> s[i].kind == k
    ensures Filter(s, OfKind(t)) == if t == k then s else []
  {
    if t == k {
      FilterAll(s, OfKind(t));
    } else {
      FilterEmpty(s, OfKind(t));
    }
  }

  /** If the scheduled-posts request fails, the feed still loads and holds
      only reply and task items. */
  lemma ScheduledFailureKeepsOthers(s: Store, replies: Option<seq<HistoryItem>>, tasks: Option<seq<CalendarTask>>,
                                    m: Mappers, x: UnifiedItem)
    requires !s.isLoading && WellTagged(m)
    ensures var r := LoadAllHistory(s, replies, tasks, None, m);
      r.hasLoaded && (x in FilteredItems(r) ==> x.kind != Scheduled)
  {
    var r := LoadAllHistory(s, replies, tasks, None, m);
    LoadedItemsBySource(s, replies, tasks, None, m);
    assert Filter(r.allItems, OfKind(Scheduled)) == [];
    FilterCount(r.allItems, OfKind(Scheduled), x);
    FilteredMembership(r, x);
  }

  // ---------------------------------------------------------------------
  // UnifiedHistoryCard

  /** The platforms a card can be marked as posted on. */
  const PostPlatforms: seq<string> := ["instagram", "tiktok", "x", "email"]

  /** `isPosted`: picked on this card, or posted according to the backend. */
  function IsPosted(picked: Option<string>, item: UnifiedItem): bool {
    picked.Some? || item.postedAt.Some?
  }

  /** `displayPostedPlatform`: the local pick wins over the backend's record. */
  function DisplayPostedPlatform(picked: Option<string>, item: UnifiedItem): Option<string> {
    if picked.Some? then picked else item.postedPlatform
  }

  /** The "Posted on ..." badge, shown when posted and a platform is known. */
  function PostedBadge(picked: Option<string>, item: UnifiedItem): Option<string> {
    if IsPosted(picked, item) then DisplayPostedPlatform(picked, item) else None
  }

  /** Marking a card posted shows that platform whatever the backend said;
      "Not Posted" falls back to the backend's record, where a posted time
      without a platform shows no badge. */
  lemma CardPostedState(item: UnifiedItem, platform: string)
    ensures IsPosted(Some(platform), item) && PostedBadge(Some(platform), item) == Some(platform)
    ensures IsPosted(None, item) <==> item.postedAt.Some?
    ensures PostedBadge(None, item) == if item.postedAt.Some? then item.postedPlatform else None
    ensures forall p :: PostedBadge(p, item).Some? ==> IsPosted(p, item)
  {
  }
}

// The child's dashboard: the progress bars of finished tasks, the reward
// store, the reading log and the library of books read, the list of
// pending tasks, free study, and the recovery of an interrupted session
// from the snapshots kept in local storage.
module ChildDashboard {
  import opened Base
  import opened Types
  import opened Lists
  import opened Tally
  import opened Session
  import Text
  import Store

  // ---------------------------------------------------------------- progress bars

  /** The width step of a score bar: the score's lower multiple of ten, 100 from 100 on, 0 below 10. */
  function ProgressStep(percent: int): (r: int)
    ensures 0 <= r <= 100 && r % 10 == 0
    ensures percent >= 100 ==> r == 100
    ensures percent < 10 ==> r == 0
    ensures 0 <= percent < 100 ==> r <= percent < r + 10
  {
    if percent >= 100 then 100
    else if percent >= 90 then 90
    else if percent >= 80 then 80
    else if percent >= 70 then 70
    else if percent >= 60 then 60
    else if percent >= 50 then 50
    else if percent >= 40 then 40
    else if percent >= 30 then 30
    else if percent >= 20 then 20
    else if percent >= 10 then 10
    else 0
  }

  /** The width class of a bar: 'w-full', 'w-[90%]' … 'w-[10%]', or 'w-0'. */
  function ProgressWidthClass(percent: int): (r: string)
    ensures percent >= 100 ==> r == "w-full"
    ensures percent < 10 ==> r == "w-0"
    ensures 10 <= percent < 100 ==> r == "w-[" + Text.NatToString(percent / 10 * 10) + "%]"
  {
    var step := ProgressStep(percent);
    if step == 100 then "w-full"
    else if step == 0 then "w-0"
    else "w-[" + Text.NatToString(step) + "%]"
  }

  /** A higher score never draws a shorter bar. */
  lemma ProgressStepMonotone(p: int, q: int)
    requires p <= q
    ensures ProgressStep(p) <= ProgressStep(q)
  {
  }

  /** Between 10 and 99 the step is the score with its last digit dropped. */
  lemma ProgressStepDropsUnits(p: int)
    requires 10 <= p < 100
    ensures ProgressStep(p) == p - p % 10
  {
  }

  // ---------------------------------------------------------------- rewards

  predicate CanAfford(points: int, reward: Reward)
  {
    points >= reward.cost
  }

  /** A reward shown as affordable is exactly one whose claim goes through. */
  lemma AffordableIffClaimable(rewards: seq<Reward>, points: int, reward: Reward)
    requires Store.FindReward(rewards, reward.id) == Some(reward)
    ensures CanAfford(points, reward) <==> Store.ClaimedBalance(rewards, points, reward.id).Some?
  {
  }

  // ---------------------------------------------------------------- reading log and library

  predicate IsFinishedReading(t: Task)
  {
    t.taskType == Reading && t.status == Completed
  }

  /** `completionTimestamp || 0`. */
  function Stamp(t: Task): int
  {
    if t.completionTimestamp.Some? then t.completionTimestamp.value else 0
  }

  /** `pagesRead || 0`. */
  function PagesOrZero(t: Task): int
  {
    if t.pagesRead.Some? then t.pagesRead.value else 0
  }

  predicate NewerOrSame(a: Task, b: Task)
  {
    Stamp(a) >= Stamp(b)
  }

  /** The reading log: every finished reading task, the most recently completed first. */
  function ReadingLog(tasks: seq<Task>): (r: seq<Task>)
    ensures multiset(r) == multiset(Filter(tasks, IsFinishedReading))
    ensures forall i, j :: 0 <= i < j < |r| ==> Stamp(r[i]) >= Stamp(r[j])
  {
    assert IsTotalPreorder(NewerOrSame);
    SortBy(Filter(tasks, IsFinishedReading), NewerOrSame)
  }

  /** A book of the library and the pages read in it. */
  datatype Book = Book(title: string, totalPages: int)

  /** The tasks the library counts: finished reading tasks with a non-empty book title. */
  predicate InLibrary(t: Task)
  {
    IsFinishedReading(t) && TruthyText(t.bookTitle)
  }

  function BookKey(t: Task): Option<string>
  {
    t.bookTitle
  }

  function TitleIs(title: string): Book -> bool
  {
    (b: Book) => b.title == title
  }

  /** `books[title] = books[title] || {totalPages: 0, title}; books[title].totalPages += pages`, keeping first-seen order. */
  function AddPages(books: seq<Book>, title: string, pages: int): seq<Book>
  {
    match FindIndex(books, TitleIs(title))
    case Some(i) => books[i := Book(title, books[i].totalPages + pages)]
    case None => books + [Book(title, pages)]
  }

  /** The `books` dictionary after the walk over `s`, as a fold from the end. */
  function Shelve(s: seq<Task>): seq<Book>
  {
    if |s| == 0 then []
    else
      var books := Shelve(s[..|s| - 1]);
      var t := s[|s| - 1];
      match t.bookTitle
      case None => books
      case Some(title) => AddPages(books, title, PagesOrZero(t))
  }

  predicate DistinctTitles(books: seq<Book>)
  {
    forall i, j :: 0 <= i < j < |books| ==> books[i].title != books[j].title
  }

  predicate Shelved(books: seq<Book>, title: string)
  {
    exists i :: 0 <= i < |books| && books[i].title == title
  }

  /** `books` has one entry per key of the tally `m`, each holding that key's sum. */
  ghost predicate ShelfMatches(books: seq<Book>, m: map<string, Bucket>)
  {
    DistinctTitles(books)
    && (forall title :: Shelved(books, title) <==> title in m)
    && (forall i :: 0 <= i < |books| ==> books[i].title in m && books[i].totalPages == m[books[i].title].sum)
  }

  /**
   * The dictionary has one entry per title, exactly the titles the tally
   * by title has, each holding that title's sum of pages.
   */
  lemma {:induction false} ShelveAgreesWithTally(s: seq<Task>)
    ensures ShelfMatches(Shelve(s), TallyOf(s, BookKey, PagesOrZero))
  {
    if |s| > 0 {
      var init := s[..|s| - 1];
      var t := s[|s| - 1];
      ShelveAgreesWithTally(init);
      if t.bookTitle.Some? {
        AddPagesAgrees(Shelve(init), TallyOf(init, BookKey, PagesOrZero), t.bookTitle.value, PagesOrZero(t));
      }
    }
  }

  /** Adding a task's pages to the shelf and to the tally keeps the two in step. */
  lemma AddPagesAgrees(books: seq<Book>, m: map<string, Bucket>, title: string, pages: int)
    requires ShelfMatches(books, m)
    ensures ShelfMatches(AddPages(books, title, pages), AddTo(m, title, pages))
  {
    var k := FindIndex(books, TitleIs(title));
    if k.Some? {
      AddPagesToShelved(books, m, title, pages, k.value);
    } else {
      forall i | 0 <= i < |books| ensures books[i].title != title {
        assert !TitleIs(title)(books[i]);
      }
      AddPagesToNew(books, m, title, pages);
    }
  }

  /** A title already on the shelf: its entry grows in place. */
  lemma AddPagesToShelved(books: seq<Book>, m: map<string, Bucket>, title: string, pages: int, k: nat)
    requires ShelfMatches(books, m)
    requires k < |books| && books[k].title == title
    ensures ShelfMatches(books[k := Book(title, books[k].totalPages + pages)], AddTo(m, title, pages))
  {
    var r := books[k := Book(title, books[k].totalPages + pages)];
    var m' := AddTo(m, title, pages);
    assert title in m;
    forall x ensures Shelved(r, x) <==> x in m' {
      if Shelved(books, x) {
        var i :| 0 <= i < |books| && books[i].title == x;
        assert r[i].title == x;
      }
      if Shelved(r, x) {
        var i :| 0 <= i < |r| && r[i].title == x;
        assert books[i].title == x;
      }
    }
  }

  /** A new title: its entry goes at the end. */
  lemma AddPagesToNew(books: seq<Book>, m: map<string, Bucket>, title: string, pages: int)
    requires ShelfMatches(books, m)
    requires forall i :: 0 <= i < |books| ==> books[i].title != title
    ensures ShelfMatches(books + [Book(title, pages)], AddTo(m, title, pages))
  {
    var r := books + [Book(title, pages)];
    var m' := AddTo(m, title, pages);
    assert !Shelved(books, title);
    forall x ensures Shelved(r, x) <==> x in m' {
      if Shelved(books, x) {
        var i :| 0 <= i < |books| && books[i].title == x;
        assert r[i].title == x;
      }
      if Shelved(r, x) && x != title {
        var i :| 0 <= i < |r| && r[i].title == x;
        assert i < |books| && books[i].title == x;
      }
      if x == title {
        assert r[|books|].title == x;
      }
    }
  }

  predicate MorePagesOrSame(a: Book, b: Book)
  {
    a.totalPages >= b.totalPages
  }

  /** `Object.values(books).sort((a, b) => b.totalPages - a.totalPages)`: the largest total first. */
  function Library(tasks: seq<Task>): (r: seq<Book>)
    ensures multiset(r) == multiset(Shelve(Filter(tasks, InLibrary)))
    ensures SortedBy(r, MorePagesOrSame)
  {
    assert IsTotalPreorder(MorePagesOrSame);
    SortBy(Shelve(Filter(tasks, InLibrary)), MorePagesOrSame)
  }

  lemma ShelfTitles(s: seq<Task>, title: string)
    ensures Shelved(Shelve(s), title) <==> CountWhere(s, BookKey, title) > 0
  {
    ShelveAgreesWithTally(s);
    TallyAt(s, BookKey, PagesOrZero, title);
  }

  lemma TitlesDistinctAfterPermutation(a: seq<Book>, b: seq<Book>)
    requires multiset(a) == multiset(b) && DistinctTitles(a)
    ensures DistinctTitles(b)
  {
    PermutationSameMembers(a, b);
    assert Distinct(a) by {
      forall i, j | 0 <= i < j < |a| ensures a[i] != a[j] {
        assert a[i].title != a[j].title;
      }
    }
    PermutationKeepsDistinct(a, b);
    forall i, j | 0 <= i < j < |b| ensures b[i].title != b[j].title {
      assert b[i] in a && b[j] in a;
      var x :| 0 <= x < |a| && a[x] == b[i];
      var y :| 0 <= y < |a| && a[y] == b[j];
      assert x != y;
      if x < y {
        assert a[x].title != a[y].title;
      } else {
        assert a[y].title != a[x].title;
      }
    }
  }

  lemma ShelvedAfterPermutation(a: seq<Book>, b: seq<Book>, title: string)
    requires multiset(a) == multiset(b)
    ensures Shelved(a, title) <==> Shelved(b, title)
  {
    PermutationSameMembers(a, b);
    if Shelved(a, title) {
      var i :| 0 <= i < |a| && a[i].title == title;
      assert a[i] in b;
      var k :| 0 <= k < |b| && b[k] == a[i];
    }
    if Shelved(b, title) {
      var i :| 0 <= i < |b| && b[i].title == title;
      assert b[i] in a;
      var k :| 0 <= k < |a| && a[k] == b[i];
    }
  }

  /** The library lists each book title once. */
  lemma LibraryTitlesDistinct(tasks: seq<Task>)
    ensures DistinctTitles(Library(tasks))
  {
    ShelveAgreesWithTally(Filter(tasks, InLibrary));
    TitlesDistinctAfterPermutation(Shelve(Filter(tasks, InLibrary)), Library(tasks));
  }

  /** The library's titles are exactly the titles of the finished reading tasks. */
  lemma LibraryTitles(tasks: seq<Task>, title: string)
    ensures Shelved(Library(tasks), title) <==> exists t :: t in tasks && InLibrary(t) && t.bookTitle == Some(title)
  {
    var done := Filter(tasks, InLibrary);
    ShelvedAfterPermutation(Shelve(done), Library(tasks), title);
    ShelfTitles(done, title);
    CountWherePositive(done, BookKey, title);
    if exists n :: 0 <= n < |done| && BookKey(done[n]) == Some(title) {
      var n :| 0 <= n < |done| && BookKey(done[n]) == Some(title);
      assert done[n] in done;
      assert done[n] in tasks && InLibrary(done[n]);
    }
    if exists t :: t in tasks && InLibrary(t) && t.bookTitle == Some(title) {
      var t :| t in tasks && InLibrary(t) && t.bookTitle == Some(title);
      assert t in done;
      var n :| 0 <= n < |done| && done[n] == t;
      assert BookKey(done[n]) == Some(title);
    }
  }

  /** Each book's total is the sum of `pagesRead || 0` over the finished reading tasks of its title. */
  lemma LibraryTotals(tasks: seq<Task>, b: Book)
    requires b in Library(tasks)
    ensures b.totalPages == SumWhere(Filter(tasks, InLibrary), BookKey, PagesOrZero, b.title)
  {
    var done := Filter(tasks, InLibrary);
    var shelf := Shelve(done);
    ShelveAgreesWithTally(done);
    PermutationSameMembers(shelf, Library(tasks));
    var k :| 0 <= k < |shelf| && shelf[k] == b;
    TallyAt(done, BookKey, PagesOrZero, b.title);
  }

  /** The `MyLibrary` memo: the forEach over the finished reading tasks, then the sort. */
  method BuildLibrary(tasks: seq<Task>) returns (library: seq<Book>)
    ensures library == Library(tasks)
  {
    var books := ShelveAll(Filter(tasks, InLibrary));
    assert IsTotalPreorder(MorePagesOrSame);
    library := SortBy(books, MorePagesOrSame);
  }

  /** The forEach over the finished reading tasks, building the `books` dictionary. */
  method ShelveAll(readingTasks: seq<Task>) returns (books: seq<Book>)
    ensures books == Shelve(readingTasks)
  {
    books := [];
    var i := 0;
    while i < |readingTasks|
      invariant 0 <= i <= |readingTasks|
      invariant books == Shelve(readingTasks[..i])
    {
      var t := readingTasks[i];
      assert readingTasks[..i + 1][..i] == readingTasks[..i];
      assert readingTasks[..i + 1][i] == t;
      books := ShelveOne(books, t);
      i := i + 1;
    }
    assert readingTasks[..i] == readingTasks;
  }

  /** The body of the forEach: the task's pages go to its title's entry, created at the end when new. */
  method ShelveOne(books: seq<Book>, t: Task) returns (r: seq<Book>)
    ensures r == if t.bookTitle.Some? then AddPages(books, t.bookTitle.value, PagesOrZero(t)) else books
  {
    r := books;
    match t.bookTitle {
      case None =>
      case Some(title) =>
        var k := FindIndex(books, TitleIs(title));
        if k.Some? {
          r := books[k.value := Book(title, books[k.value].totalPages + PagesOrZero(t))];
        } else {
          r := books + [Book(title, PagesOrZero(t))];
        }
    }
  }

  // ---------------------------------------------------------------- pending tasks

  /** 'all', 'today' or 'upcoming'. */
  datatype TaskFilter = AllTasks | DueToday | Upcoming

  predicate IsPending(t: Task)
  {
    t.status == Pending
  }

  predicate DueNoLater(a: Task, b: Task)
  {
    a.dueDate <= b.dueDate
  }

  /** The pending tasks, the earliest due first. */
  function AllPendingTasks(tasks: seq<Task>): (r: seq<Task>)
    ensures multiset(r) == multiset(Filter(tasks, IsPending))
    ensures forall t :: t in r <==> t in tasks && t.status == Pending
    ensures SortedBy(r, DueNoLater)
  {
    assert IsTotalPreorder(DueNoLater);
    var r := SortBy(Filter(tasks, IsPending), DueNoLater);
    PermutationSameMembers(r, Filter(tasks, IsPending));
    r
  }

  predicate DueOn(today: int, t: Task)
  {
    t.dueDate == today
  }

  predicate DueAfter(today: int, t: Task)
  {
    t.dueDate > today
  }

  /**
   * The list under the selected filter, `today` being the current day on
   * the scale of the due dates: still the earliest due first.
   */
  function FilteredPendingTasks(tasks: seq<Task>, filter: TaskFilter, today: int): (r: seq<Task>)
    ensures forall t :: t in r ==> t in tasks && t.status == Pending
    ensures filter == DueToday ==> forall t :: t in r <==> t in tasks && t.status == Pending && t.dueDate == today
    ensures filter == Upcoming ==> forall t :: t in r <==> t in tasks && t.status == Pending && t.dueDate > today
    ensures filter == AllTasks ==> r == AllPendingTasks(tasks)
    ensures SortedBy(r, DueNoLater)
  {
    var all := AllPendingTasks(tasks);
    match filter
    case DueToday =>
      var p := (t: Task) => DueOn(today, t);
      FilterKeepsSorted(all, p, DueNoLater);
      Filter(all, p)
    case Upcoming =>
      var p := (t: Task) => DueAfter(today, t);
      FilterKeepsSorted(all, p, DueNoLater);
      Filter(all, p)
    case AllTasks => all
  }

  /** The tasks completed today, listed under "Bugün Tamamlananlar". */
  function CompletedToday(tasks: seq<Task>, today: string): (r: seq<Task>)
    ensures forall t :: t in r <==> t in tasks && t.status == Completed && t.completionDate == Some(today)
  {
    Filter(tasks, (t: Task) => t.status == Completed && t.completionDate == Some(today))
  }

  // ---------------------------------------------------------------- session recovery

  /** The task whose saved session the scan offers, with the snapshot read back. */
  datatype Found = Found(task: Task, state: TimerState)

  datatype ScanResult = ScanResult(found: Option<Found>, items: map<string, Stored>)

  /**
   * The recovery scan: the first pending task in list order with a readable
   * snapshot; every unreadable snapshot of a pending task met before it is
   * removed.
   */
  function Scan(tasks: seq<Task>, items: map<string, Stored>): ScanResult
  {
    if |tasks| == 0 then ScanResult(None, items)
    else
      var t := tasks[0];
      var key := TimerKey(t.id);
      if t.status == Pending && key in items then
        match items[key]
        case Saved(s) => ScanResult(Some(Found(t, s)), items)
        case Unreadable => Scan(tasks[1..], items - {key})
      else Scan(tasks[1..], items)
  }

  /** No pending task before position `k` has a readable snapshot in `items`. */
  predicate NoneSavedBefore(tasks: seq<Task>, items: map<string, Stored>, k: int)
    requires k <= |tasks|
  {
    forall j :: 0 <= j < k && tasks[j].status == Pending && TimerKey(tasks[j].id) in items ==>
      items[TimerKey(tasks[j].id)] == Unreadable
  }

  /** The offered task sits at position `k`: pending, with the handed-back snapshot stored, and first such. */
  predicate FirstSavedAt(tasks: seq<Task>, items: map<string, Stored>, f: Found, k: int)
  {
    0 <= k < |tasks| && tasks[k] == f.task && f.task.status == Pending
    && TimerKey(f.task.id) in items && items[TimerKey(f.task.id)] == Saved(f.state)
    && NoneSavedBefore(tasks, items, k)
  }

  /**
   * The offered task is the first pending task of the list whose key holds
   * a readable snapshot, and the snapshot handed back is that one.
   */
  lemma {:induction false} ScanFindsFirst(tasks: seq<Task>, items: map<string, Stored>)
    ensures var r := Scan(tasks, items);
      r.found.Some? ==> exists k :: FirstSavedAt(tasks, items, r.found.value, k)
  {
    if |tasks| > 0 {
      var t := tasks[0];
      var key := TimerKey(t.id);
      var r := Scan(tasks, items);
      if t.status == Pending && key in items && items[key].Saved? {
        assert FirstSavedAt(tasks, items, r.found.value, 0);
      } else {
        var rest := if t.status == Pending && key in items then items - {key} else items;
        assert r == Scan(tasks[1..], rest);
        ScanFindsFirst(tasks[1..], rest);
        if r.found.Some? {
          var k :| FirstSavedAt(tasks[1..], rest, r.found.value, k);
          assert tasks[k + 1] == tasks[1..][k];
          forall j | 0 <= j < k + 1 && tasks[j].status == Pending && TimerKey(tasks[j].id) in items
            ensures items[TimerKey(tasks[j].id)] == Unreadable
          {
            if j > 0 && TimerKey(tasks[j].id) != key {
              assert tasks[j] == tasks[1..][j - 1];
            }
          }
          assert FirstSavedAt(tasks, items, r.found.value, k + 1);
        }
      }
    }
  }

  /** The scan removes unreadable snapshots only, and changes no entry it keeps. */
  lemma {:induction false} ScanRemovesOnlyUnreadable(tasks: seq<Task>, items: map<string, Stored>)
    ensures var r := Scan(tasks, items);
      r.items.Keys <= items.Keys
      && (forall key :: key in r.items ==> r.items[key] == items[key])
      && (forall key :: key in items && key !in r.items ==> items[key] == Unreadable)
  {
    if |tasks| > 0 {
      var t := tasks[0];
      var key := TimerKey(t.id);
      if t.status == Pending && key in items {
        if items[key].Unreadable? {
          ScanRemovesOnlyUnreadable(tasks[1..], items - {key});
        }
      } else {
        ScanRemovesOnlyUnreadable(tasks[1..], items);
      }
    }
  }

  /**
   * When nothing is offered, no pending task had a readable snapshot, and
   * the unreadable ones of the pending tasks are all gone.
   */
  lemma {:induction false} ScanNothingFound(tasks: seq<Task>, items: map<string, Stored>)
    ensures var r := Scan(tasks, items);
      r.found.None? ==>
        forall t :: t in tasks && t.status == Pending ==>
          TimerKey(t.id) !in r.items && (TimerKey(t.id) in items ==> items[TimerKey(t.id)] == Unreadable)
  {
    if |tasks| > 0 {
      var t := tasks[0];
      var key := TimerKey(t.id);
      var r := Scan(tasks, items);
      if t.status == Pending && key in items {
        if items[key].Unreadable? {
          var rest := items - {key};
          ScanNothingFound(tasks[1..], rest);
          ScanRemovesOnlyUnreadable(tasks[1..], rest);
          if r.found.None? {
            forall u | u in tasks && u.status == Pending
              ensures TimerKey(u.id) !in r.items && (TimerKey(u.id) in items ==> items[TimerKey(u.id)] == Unreadable)
            {
              if u != t {
                assert u in tasks[1..];
              }
            }
          }
        }
      } else {
        ScanNothingFound(tasks[1..], items);
        ScanRemovesOnlyUnreadable(tasks[1..], items);
        if r.found.None? {
          forall u | u in tasks && u.status == Pending
            ensures TimerKey(u.id) !in r.items && (TimerKey(u.id) in items ==> items[TimerKey(u.id)] == Unreadable)
          {
            if u != t {
              assert u in tasks[1..];
            } else {
              assert key !in items;
            }
          }
        }
      }
    }
  }

  /** The mount-time loop over the task list, with its early return. */
  method ScanSessions(tasks: seq<Task>, items: map<string, Stored>) returns (found: Option<Found>, rest: map<string, Stored>)
    ensures ScanResult(found, rest) == Scan(tasks, items)
  {
    found := None;
    rest := items;
    var i := 0;
    while i < |tasks| && found.None?
      invariant 0 <= i <= |tasks|
      invariant found.None? ==> Scan(tasks[i..], rest) == Scan(tasks, items)
      invariant found.Some? ==> ScanResult(found, rest) == Scan(tasks, items)
    {
      var t := tasks[i];
      var key := TimerKey(t.id);
      assert tasks[i..][0] == t && tasks[i..][1..] == tasks[i + 1..];
      if t.status == Pending && key in rest {
        match rest[key] {
          case Saved(s) =>
            found := Some(Found(t, s));
          case Unreadable =>
            rest := rest - {key};
        }
      }
      i := i + 1;
    }
  }

  // ---------------------------------------------------------------- which snapshot a session opens with

  /** A snapshot read by the scan, with the task it was saved for. */
  datatype Recovery = Recovery(taskId: string, state: TimerState)

  /** What the program hands every session it opens: the recovered snapshot, whatever the task. */
  function StartStateAsWritten(persisted: Option<Recovery>, taskId: string): Option<TimerState>
  {
    if persisted.Some? then Some(persisted.value.state) else None
  }

  /** The recovered snapshot, handed only to a session of the task it was saved for. */
  function StartState(persisted: Option<Recovery>, taskId: string): (r: Option<TimerState>)
    ensures r.Some? <==> persisted.Some? && persisted.value.taskId == taskId
  {
    if persisted.Some? && persisted.value.taskId == taskId then Some(persisted.value.state) else None
  }

  /**
   * As written, once a session has been recovered, every later session of
   * the same dashboard (of any task) opens with the recovered counters and
   * without the countdown.
   */
  lemma StaleSnapshotReachesOtherTask()
    ensures var persisted := Some(Recovery("task_1", TimerState(600, 0, 0, Paused)));
      InitialState(StartStateAsWritten(persisted, "task_2")) == TimerState(600, 0, 0, Paused)
      && InitialState(StartState(persisted, "task_2")) == TimerState(0, 0, 0, Running)
  {
  }

  /** With the snapshot tied to its task, any other task starts from zero counters, running. */
  lemma OnlyRecoveredTaskResumes(persisted: Option<Recovery>, taskId: string)
    ensures persisted.Some? && persisted.value.taskId == taskId ==>
      InitialState(StartState(persisted, taskId)) == persisted.value.state
    ensures !(persisted.Some? && persisted.value.taskId == taskId) ==>
      InitialState(StartState(persisted, taskId)) == TimerState(0, 0, 0, Running)
  {
  }

  // ---------------------------------------------------------------- the dashboard

  /** `courses[0]?.id || ''`. */
  function FirstCourseId(courses: seq<Course>): string
  {
    if |courses| > 0 then courses[0].id else ""
  }

  /** The task free study creates: self-assigned study, due today. */
  function FreeStudyDraft(title: string, courseId: string, duration: int, today: int): TaskDraft
  {
    TaskDraft(courseId, title, Study, duration, today, None, None, true)
  }

  class Dashboard {
    const store: Store.TaskStore
    const storage: SnapshotStorage
    /** The task of the open timer session, if any. */
    var activeTask: Option<Task>
    /** The task of the open reading session, if any. */
    var activeReadingTask: Option<Task>
    /** The snapshot the open session was given (`initialTimerState`). */
    var sessionInitial: Option<TimerState>
    var persisted: Option<Recovery>
    var unfinished: Option<Task>
    var showUnfinishedModal: bool
    var taskFilter: TaskFilter
    var freeStudyOpen: bool
    var freeStudyTitle: string
    var freeStudyCourseId: string
    var freeStudyDuration: int

    /** At most one session is open, of the kind the task calls for; the prompt shows a recovered task. */
    ghost predicate Valid()
      reads this
    {
      (activeTask.None? || activeReadingTask.None?)
      && (activeTask.Some? ==> activeTask.value.taskType != Reading)
      && (activeReadingTask.Some? ==> activeReadingTask.value.taskType == Reading)
      && showUnfinishedModal == unfinished.Some?
      && (unfinished.Some? ==> persisted.Some? && persisted.value.taskId == unfinished.value.id)
    }

    predicate NoSession()
      reads this
    {
      activeTask.None? && activeReadingTask.None?
    }

    constructor(store: Store.TaskStore, storage: SnapshotStorage)
      ensures this.store == store && this.storage == storage
      ensures NoSession() && sessionInitial.None? && persisted.None? && unfinished.None? && !showUnfinishedModal
      ensures taskFilter == DueToday && !freeStudyOpen
      ensures freeStudyTitle == "" && freeStudyCourseId == FirstCourseId(store.courses) && freeStudyDuration == 30
      ensures Valid()
    {
      this.store := store;
      this.storage := storage;
      activeTask := None;
      activeReadingTask := None;
      sessionInitial := None;
      persisted := None;
      unfinished := None;
      showUnfinishedModal := false;
      taskFilter := DueToday;
      freeStudyOpen := false;
      freeStudyTitle := "";
      freeStudyCourseId := FirstCourseId(store.courses);
      freeStudyDuration := 30;
    }

    /** The effect run once on mount: look for an interrupted session. */
    method CheckUnfinishedSessions()
      requires Valid()
      modifies this, storage
      ensures var r := Scan(store.tasks, old(storage.items));
        storage.items == r.items
        && (r.found.Some? ==>
              unfinished == Some(r.found.value.task) && showUnfinishedModal
              && persisted == Some(Recovery(r.found.value.task.id, r.found.value.state)))
        && (r.found.None? ==>
              unfinished == old(unfinished) && showUnfinishedModal == old(showUnfinishedModal) && persisted == old(persisted))
      ensures activeTask == old(activeTask) && activeReadingTask == old(activeReadingTask) && sessionInitial == old(sessionInitial)
      ensures taskFilter == old(taskFilter) && freeStudyOpen == old(freeStudyOpen)
      ensures (freeStudyTitle, freeStudyCourseId, freeStudyDuration) == old((freeStudyTitle, freeStudyCourseId, freeStudyDuration))
      ensures Valid()
    {
      var found, rest := ScanSessions(store.tasks, storage.items);
      storage.items := rest;
      if found.Some? {
        persisted := Some(Recovery(found.value.task.id, found.value.state));
        unfinished := Some(found.value.task);
        showUnfinishedModal := true;
      }
    }

    /** `handleStartTask`: mark the task started, then open the session its type calls for. */
    method StartTask(task: Task, now: int)
      requires Valid() && NoSession()
      modifies this, store
      ensures store.tasks == Store.StartIn(old(store.tasks), task.id, now)
      ensures store.Data() == old(store.Data()).(tasks := store.tasks) && store.Session() == old(store.Session())
      ensures task.taskType == Reading ==> activeReadingTask == Some(task) && activeTask.None?
      ensures task.taskType != Reading ==> activeTask == Some(task) && activeReadingTask.None?
      ensures sessionInitial == StartState(persisted, task.id)
      ensures persisted.None? || persisted.value.taskId == task.id ==> sessionInitial == StartStateAsWritten(persisted, task.id)
      ensures persisted == old(persisted) && unfinished == old(unfinished) && showUnfinishedModal == old(showUnfinishedModal)
      ensures taskFilter == old(taskFilter) && freeStudyOpen == old(freeStudyOpen)
      ensures (freeStudyTitle, freeStudyCourseId, freeStudyDuration) == old((freeStudyTitle, freeStudyCourseId, freeStudyDuration))
      ensures Valid()
    {
      store.StartTask(task.id, now);
      if task.taskType == Reading {
        activeReadingTask := Some(task);
      } else {
        activeTask := Some(task);
      }
      sessionInitial := StartState(persisted, task.id);
    }

    /** Add the drafted task to the store and open its session at once. */
    method AddAndStart(freshId: string, draft: TaskDraft, now: int) returns (t: Task)
      requires Valid() && NoSession()
      modifies this, store
      ensures t == NewTask(freshId, draft)
      ensures store.tasks == Store.StartIn([t] + old(store.tasks), freshId, now)
      ensures store.Data() == old(store.Data()).(tasks := store.tasks) && store.Session() == old(store.Session())
      ensures t.taskType == Reading ==> activeReadingTask == Some(t) && activeTask.None?
      ensures t.taskType != Reading ==> activeTask == Some(t) && activeReadingTask.None?
      ensures persisted == old(persisted) && unfinished == old(unfinished) && showUnfinishedModal == old(showUnfinishedModal)
      ensures taskFilter == old(taskFilter) && freeStudyOpen == old(freeStudyOpen)
      ensures (freeStudyTitle, freeStudyCourseId, freeStudyDuration) == old((freeStudyTitle, freeStudyCourseId, freeStudyDuration))
      ensures Valid()
    {
      t := store.AddTask(freshId, draft);
      StartTask(t, now);
    }

    /** `handleStartFreeStudy`: create the task from the form and start it at once. */
    method StartFreeStudy(freshId: string, today: int, now: int) returns (started: bool)
      requires Valid() && NoSession()
      modifies this, store
      ensures started <==> Text.Trim(old(freeStudyTitle)) != "" && old(freeStudyCourseId) != "" && old(freeStudyDuration) > 0
      ensures started ==>
        var t := NewTask(freshId, FreeStudyDraft(old(freeStudyTitle), old(freeStudyCourseId), old(freeStudyDuration), today));
        store.tasks == Store.StartIn([t] + old(store.tasks), freshId, now)
        && activeTask == Some(t) && activeReadingTask.None?
        && !freeStudyOpen && freeStudyTitle == "" && freeStudyDuration == 30
        && freeStudyCourseId == FirstCourseId(store.courses)
      ensures !started ==>
        store.tasks == old(store.tasks) && NoSession() && freeStudyOpen == old(freeStudyOpen)
        && (freeStudyTitle, freeStudyCourseId, freeStudyDuration) == old((freeStudyTitle, freeStudyCourseId, freeStudyDuration))
      ensures store.Data() == old(store.Data()).(tasks := store.tasks) && store.Session() == old(store.Session())
      ensures persisted == old(persisted) && unfinished == old(unfinished) && taskFilter == old(taskFilter)
      ensures Valid()
    {
      if Text.Trim(freeStudyTitle) != "" && freeStudyCourseId != "" && freeStudyDuration > 0 {
        var draft := FreeStudyDraft(freeStudyTitle, freeStudyCourseId, freeStudyDuration, today);
        assert draft.taskType != Reading;
        freeStudyOpen, freeStudyTitle, freeStudyDuration := false, "", 30;
        freeStudyCourseId := FirstCourseId(store.courses);
        var t := AddAndStart(freshId, draft, now);
        started := true;
      } else {
        started := false;
      }
    }

    /** `handleContinueSession`: start the recovered task; the recovered snapshot stays set. */
    method ContinueSession(now: int)
      requires Valid() && NoSession()
      modifies this, store
      ensures old(unfinished).Some? ==>
        var t := old(unfinished).value;
        store.tasks == Store.StartIn(old(store.tasks), t.id, now)
        && (t.taskType == Reading ==> activeReadingTask == Some(t))
        && (t.taskType != Reading ==> activeTask == Some(t))
        && sessionInitial == Some(old(persisted).value.state)
      ensures old(unfinished).None? ==> store.tasks == old(store.tasks) && NoSession() && sessionInitial == old(sessionInitial)
      ensures unfinished.None? && !showUnfinishedModal && persisted == old(persisted)
      ensures store.Data() == old(store.Data()).(tasks := store.tasks) && store.Session() == old(store.Session())
      ensures taskFilter == old(taskFilter) && freeStudyOpen == old(freeStudyOpen)
      ensures Valid()
    {
      if unfinished.Some? {
        var t := unfinished.value;
        StartTask(t, now);
        showUnfinishedModal := false;
        unfinished := None;
      }
    }

    /** `handleDiscardSession`: forget the recovered session and delete its snapshot. */
    method DiscardSession()
      requires Valid()
      modifies this, storage
      ensures old(unfinished).Some? ==>
        storage.items == old(storage.items) - {TimerKey(old(unfinished).value.id)}
        && persisted.None?
      ensures old(unfinished).None? ==> storage.items == old(storage.items) && persisted == old(persisted)
      ensures unfinished.None? && !showUnfinishedModal
      ensures activeTask == old(activeTask) && activeReadingTask == old(activeReadingTask) && sessionInitial == old(sessionInitial)
      ensures taskFilter == old(taskFilter) && freeStudyOpen == old(freeStudyOpen)
      ensures Valid()
    {
      if unfinished.Some? {
        storage.Remove(unfinished.value.id);
        showUnfinishedModal := false;
        unfinished := None;
        persisted := None;
      }
    }

    /** `onFinishSession` of either session: back to the dashboard. */
    method CloseSession()
      requires Valid()
      modifies this
      ensures NoSession()
      ensures sessionInitial == old(sessionInitial) && persisted == old(persisted) && unfinished == old(unfinished)
      ensures showUnfinishedModal == old(showUnfinishedModal) && taskFilter == old(taskFilter)
      ensures Valid()
    {
      activeTask := None;
      activeReadingTask := None;
    }

    /** The pending list currently shown, `today` being the current day. */
    function ShownPendingTasks(today: int): (r: seq<Task>)
      reads this, store
      ensures forall t :: t in r ==> t in store.tasks && t.status == Pending
    {
      FilteredPendingTasks(store.tasks, taskFilter, today)
    }
  }
}

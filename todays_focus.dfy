/**
 * The "Today's Focus" dashboard card: priority and due-date badges, the
 * list of open tasks ordered by due date (undated last, ties in their
 * original order), the first four of them shown, and removal of a task once
 * it is marked complete.
 */
module TodaysFocus {
  import opened JsValues
  import opened JsText
  import opened Sequences

  datatype PriorityMeta = PriorityMeta(labelText: string, className: string)

  const PriorityTable: map<string, PriorityMeta> := map[
    "high" := PriorityMeta("High priority", "priority-high"),
    "medium" := PriorityMeta("Medium priority", "priority-medium"),
    "low" := PriorityMeta("Low priority", "priority-low")
  ]

  /**
   * `getPriorityMeta(priority = 'medium')`. `None` is a missing or null
   * priority; both end at the medium entry.
   */
  function PriorityMetaFor(priority: Option<string>): (m: PriorityMeta)
    ensures m in PriorityTable.Values
    ensures priority.Some? && priority.value in PriorityTable ==> m == PriorityTable[priority.value]
    ensures priority.None? || priority.value !in PriorityTable ==> m == PriorityTable["medium"]
  {
    var key := if priority.Some? then priority.value else "medium";
    if key in PriorityTable then PriorityTable[key] else PriorityTable["medium"]
  }

  /** The badge tones; `ToneClass` gives the CSS class the source uses for each. */
  datatype Tone = DueNone | DueOverdue | DueToday | DueSoon | DueLater

  function ToneClass(t: Tone): (c: string)
    ensures "due-" <= c
  {
    match t
    case DueNone => "due-none"
    case DueOverdue => "due-overdue"
    case DueToday => "due-today"
    case DueSoon => "due-soon"
    case DueLater => "due-later"
  }

  /** Each tone has a class of its own. */
  lemma ToneClassesDistinct(t: Tone, u: Tone)
    ensures ToneClass(t) == ToneClass(u) <==> t == u
  {
    if t != u {
      assert ToneClass(t)[4..] != ToneClass(u)[4..];
    }
  }

  datatype DueMeta = DueMeta(labelText: string, tone: Tone)

  /**
   * A task's due date as `getDueMeta` sees it: none, or the whole number of
   * days from today's date to the due date together with the short
   * month-and-day text the browser's locale renders for it.
   */
  datatype DueInfo = NoDueDate | Dated(dayDiff: int, shortDate: string)

  function Abs(x: int): nat {
    if x < 0 then -x else x
  }

  /** `getDueMeta`: every due date falls in exactly one tone, decided by the sign and size of the difference. */
  function DueMetaFor(due: DueInfo): (m: DueMeta)
    ensures due.NoDueDate? <==> m.tone == DueNone
    ensures due.NoDueDate? ==> m.labelText == "No due date"
    ensures due.Dated? ==> (m.tone == DueOverdue <==> due.dayDiff < 0)
    ensures due.Dated? ==> (m.tone == DueToday <==> due.dayDiff == 0)
    ensures due.Dated? ==> (m.tone == DueSoon <==> 1 <= due.dayDiff <= 7)
    ensures due.Dated? ==> (m.tone == DueLater <==> due.dayDiff > 7)
    ensures due.Dated? && due.dayDiff < 0 ==>
      m.labelText == "Overdue by " + NatToString(-due.dayDiff) + (if due.dayDiff == -1 then " day" else " days")
    ensures due.Dated? && due.dayDiff == 0 ==> m.labelText == "Due today"
    ensures due.Dated? && due.dayDiff == 1 ==> m.labelText == "Due tomorrow"
    ensures due.Dated? && 2 <= due.dayDiff <= 7 ==> m.labelText == "Due in " + NatToString(due.dayDiff) + " days"
    ensures due.Dated? && due.dayDiff > 7 ==> m.labelText == "Due " + due.shortDate
  {
    match due
    case NoDueDate => DueMeta("No due date", DueNone)
    case Dated(d, shortDate) =>
      if d < 0 then
        var days := Abs(d);
        DueMeta("Overdue by " + NatToString(days) + " day" + (if days == 1 then "" else "s"), DueOverdue)
      else if d == 0 then DueMeta("Due today", DueToday)
      else if d == 1 then DueMeta("Due tomorrow", DueSoon)
      else if d <= 7 then DueMeta("Due in " + NatToString(d) + " days", DueSoon)
      else DueMeta("Due " + shortDate, DueLater)
  }

  /** An overdue label counts |d| days and ends in the plural "s" exactly when |d| is not 1. */
  lemma OverdueLabel(d: int, shortDate: string)
    requires d < 0
    ensures var text := DueMetaFor(Dated(d, shortDate)).labelText;
      && "Overdue by " + NatToString(-d) <= text
      && (text[|text| - 1] == 's' <==> d != -1)
  {
    var text := DueMetaFor(Dated(d, shortDate)).labelText;
    var digits := NatToString(-d);
    if d == -1 {
      assert text == "Overdue by " + digits + " day";
    } else {
      assert text == "Overdue by " + digits + " day" + "s";
    }
    assert text == ("Overdue by " + digits) + text[|"Overdue by "| + |digits|..];
  }

  /** The task fields the card reads; `due` is the due instant in milliseconds, if any. */
  datatype Task = Task(id: int, title: string, status: string, due: Option<int>, priority: Option<string>)

  const Completed := "completed"

  /** The comparator's order: `a` sorts strictly before `b`; a missing due date counts as +Infinity. */
  predicate DueBefore(a: Task, b: Task) {
    a.due.Some? && (b.due.None? || a.due.value < b.due.value)
  }

  ghost predicate SortedByDue(ts: seq<Task>) {
    forall i, j :: 0 <= i < j < |ts| ==> !DueBefore(ts[j], ts[i])
  }

  /** The subsequence of tasks whose due key is `k`. */
  function WithKey(ts: seq<Task>, k: Option<int>): seq<Task> {
    if ts == [] then [] else (if ts[0].due == k then [ts[0]] else []) + WithKey(ts[1..], k)
  }

  lemma {:induction false} WithKeyAppend(a: seq<Task>, b: seq<Task>, k: Option<int>)
    ensures WithKey(a + b, k) == WithKey(a, k) + WithKey(b, k)
  {
    if a != [] {
      assert (a + b)[0] == a[0] && (a + b)[1..] == a[1..] + b;
      WithKeyAppend(a[1..], b, k);
    } else {
      assert a + b == b;
    }
  }

  /** Tasks with the same due key keep their relative order. */
  ghost predicate StableFor(r: seq<Task>, ts: seq<Task>) {
    forall k :: WithKey(r, k) == WithKey(ts, k)
  }

  /** `(data.tasks ?? []).filter((task) => task.status !== 'completed')`. */
  function PendingOf(ts: seq<Task>): (r: seq<Task>)
    ensures forall t :: multiset(r)[t] == if t.status == Completed then 0 else multiset(ts)[t]
    ensures IsSubsequence(r, ts)
  {
    if ts == [] then []
    else
      assert ts == [ts[0]] + ts[1..];
      var rest := PendingOf(ts[1..]);
      if ts[0].status != Completed then
        assert ([ts[0]] + rest)[1..] == rest;
        [ts[0]] + rest
      else rest
  }

  /**
   * Places `x` after the last task of `t` whose key is not greater than its
   * own, as a stable sort does with the element it meets last.
   */
  function Insert(t: seq<Task>, x: Task): (r: seq<Task>)
    ensures multiset(r) == multiset(t) + multiset{x}
    ensures SortedByDue(t) ==> SortedByDue(r)
    decreases |t|
  {
    if t == [] then [x]
    else if !DueBefore(x, t[|t| - 1]) then
      InsertAtEndSorted(t, x);
      t + [x]
    else
      var init, last := t[..|t| - 1], t[|t| - 1];
      assert t == init + [last];
      var front := Insert(init, x);
      InsertBeforeLastSorted(front, init, last, x);
      front + [last]
  }

  lemma InsertAtEndSorted(t: seq<Task>, x: Task)
    requires t != [] && !DueBefore(x, t[|t| - 1])
    ensures SortedByDue(t) ==> SortedByDue(t + [x])
  {
    if SortedByDue(t) {
      forall i, j | 0 <= i < j < |t + [x]| ensures !DueBefore((t + [x])[j], (t + [x])[i]) {
        if j == |t| && i < |t| - 1 {
          assert !DueBefore(t[|t| - 1], t[i]);
        }
      }
    }
  }

  lemma InsertBeforeLastSorted(r: seq<Task>, init: seq<Task>, last: Task, x: Task)
    requires DueBefore(x, last)
    requires multiset(r) == multiset(init) + multiset{x}
    requires SortedByDue(init + [last]) ==> SortedByDue(r)
    ensures SortedByDue(init + [last]) ==> SortedByDue(r + [last])
  {
    if SortedByDue(init + [last]) {
      forall i, j | 0 <= i < j < |r + [last]| ensures !DueBefore((r + [last])[j], (r + [last])[i]) {
        if j == |r| {
          var e := r[i];
          assert e in multiset(r);
          if e != x {
            assert e in multiset(init);
            var k :| 0 <= k < |init| && init[k] == e;
            assert (init + [last])[k] == e && (init + [last])[|init|] == last;
          }
        } else {
          assert (r + [last])[j] == r[j] && (r + [last])[i] == r[i];
        }
      }
    }
  }

  lemma {:induction false} InsertStable(t: seq<Task>, x: Task, k: Option<int>)
    ensures WithKey(Insert(t, x), k) == WithKey(t, k) + WithKey([x], k)
    decreases |t|
  {
    if t == [] {
    } else if !DueBefore(x, t[|t| - 1]) {
      WithKeyAppend(t, [x], k);
    } else {
      var init, last := t[..|t| - 1], t[|t| - 1];
      assert t == init + [last];
      var front := Insert(init, x);
      assert Insert(t, x) == front + [last];
      InsertStable(init, x, k);
      InsertStableStep(init, front, last, x, k);
    }
  }

  /** Putting `last` back after the insertion keeps the tasks of each key in order. */
  lemma InsertStableStep(init: seq<Task>, front: seq<Task>, last: Task, x: Task, k: Option<int>)
    requires DueBefore(x, last)
    requires WithKey(front, k) == WithKey(init, k) + WithKey([x], k)
    ensures WithKey(front + [last], k) == WithKey(init + [last], k) + WithKey([x], k)
  {
    WithKeyAppend(front, [last], k);
    WithKeyAppend(init, [last], k);
    WithKeySingle(x, k);
    WithKeySingle(last, k);
    // `x` sorts strictly before `last`, so their keys differ and at most one of them has key `k`.
    if x.due == k {
      assert WithKey([last], k) == [];
    } else {
      assert WithKey([x], k) == [];
    }
  }

  lemma WithKeySingle(x: Task, k: Option<int>)
    ensures WithKey([x], k) == if x.due == k then [x] else []
  {
    assert [x][1..] == [];
  }

  /**
   * `[...pending].sort((a, b) => aDue - bDue)`: a stable insertion sort by
   * due key. The result is a permutation of the input, ordered by due date
   * with undated tasks last, and tasks with equal keys stay in input order.
   */
  function SortByDue(ts: seq<Task>): (r: seq<Task>)
    ensures multiset(r) == multiset(ts)
    ensures SortedByDue(r)
    ensures forall i, j :: 0 <= i < j < |r| && r[i].due.None? ==> r[j].due.None?
    ensures StableFor(r, ts)
    decreases |ts|
  {
    if ts == [] then []
    else
      var init, last := ts[..|ts| - 1], ts[|ts| - 1];
      assert ts == init + [last];
      var sortedInit := SortByDue(init);
      SortStableStep(sortedInit, init, last);
      Insert(sortedInit, last)
  }

  lemma SortStableStep(sortedInit: seq<Task>, init: seq<Task>, last: Task)
    requires StableFor(sortedInit, init)
    ensures StableFor(Insert(sortedInit, last), init + [last])
  {
    forall k ensures WithKey(Insert(sortedInit, last), k) == WithKey(init + [last], k) {
      InsertStable(sortedInit, last, k);
      WithKeyAppend(init, [last], k);
    }
  }

  /** `prev.filter((task) => task.id !== taskId)`. */
  function RemoveTask(ts: seq<Task>, id: int): (r: seq<Task>)
    ensures forall t :: multiset(r)[t] == if t.id == id then 0 else multiset(ts)[t]
    ensures IsSubsequence(r, ts)
    ensures (forall i :: 0 <= i < |ts| ==> ts[i].id != id) ==> r == ts
  {
    if ts == [] then []
    else
      assert ts == [ts[0]] + ts[1..];
      var rest := RemoveTask(ts[1..], id);
      if ts[0].id != id then
        assert ([ts[0]] + rest)[1..] == rest;
        [ts[0]] + rest
      else rest
  }

  /** No task of `ts` sorts strictly before `a`. */
  ghost predicate NoneBefore(ts: seq<Task>, a: Task) {
    forall i :: 0 <= i < |ts| ==> !DueBefore(ts[i], a)
  }

  /** Removal only drops tasks, so a task no later than all of a list is no later than what is left. */
  lemma {:induction false} RemoveKeepsNoneBefore(ts: seq<Task>, id: int, a: Task)
    requires NoneBefore(ts, a)
    ensures NoneBefore(RemoveTask(ts, id), a)
  {
    if ts != [] {
      var rest := RemoveTask(ts[1..], id);
      RemoveKeepsNoneBefore(ts[1..], id, a);
      if ts[0].id != id {
        var r := [ts[0]] + rest;
        assert RemoveTask(ts, id) == r;
        forall i | 0 <= i < |r| ensures !DueBefore(r[i], a) {
          if i > 0 {
            assert r[i] == rest[i - 1];
          }
        }
      } else {
        assert RemoveTask(ts, id) == rest;
      }
    }
  }

  /** A task no later than every task of an ordered list can go in front of it. */
  lemma ConsSorted(a: Task, rest: seq<Task>)
    requires NoneBefore(rest, a) && SortedByDue(rest)
    ensures SortedByDue([a] + rest)
  {
    var r := [a] + rest;
    forall i, j | 0 <= i < j < |r| ensures !DueBefore(r[j], r[i]) {
      assert r[j] == rest[j - 1];
      if i > 0 {
        assert r[i] == rest[i - 1];
      }
    }
  }

  /** Removing tasks from an ordered list leaves it ordered. */
  lemma {:induction false} RemoveKeepsOrder(ts: seq<Task>, id: int)
    requires SortedByDue(ts)
    ensures SortedByDue(RemoveTask(ts, id))
  {
    if ts != [] {
      var tail := ts[1..];
      assert SortedByDue(tail) by {
        forall i, j | 0 <= i < j < |tail| ensures !DueBefore(tail[j], tail[i]) {
          assert tail[i] == ts[i + 1] && tail[j] == ts[j + 1];
        }
      }
      var rest := RemoveTask(tail, id);
      RemoveKeepsOrder(tail, id);
      if ts[0].id != id {
        assert NoneBefore(tail, ts[0]) by {
          forall i | 0 <= i < |tail| ensures !DueBefore(tail[i], ts[0]) {
            assert tail[i] == ts[i + 1];
          }
        }
        RemoveKeepsNoneBefore(tail, id, ts[0]);
        ConsSorted(ts[0], rest);
        assert RemoveTask(ts, id) == [ts[0]] + rest;
      } else {
        assert RemoveTask(ts, id) == rest;
      }
    }
  }

  /** Removal only drops tasks, so a list without completed tasks keeps none. */
  lemma RemoveKeepsOpen(ts: seq<Task>, id: int)
    requires forall i :: 0 <= i < |ts| ==> ts[i].status != Completed
    ensures forall i :: 0 <= i < |RemoveTask(ts, id)| ==> RemoveTask(ts, id)[i].status != Completed
  {
    var r := RemoveTask(ts, id);
    forall i | 0 <= i < |r| ensures r[i].status != Completed {
      assert r[i] in multiset(r);
      assert r[i] in multiset(ts);
    }
  }

  const MaxVisible: nat := 4

  /** `tasks.slice(0, 4)`: the first four tasks, or all of them when there are fewer. */
  function VisibleTasks(ts: seq<Task>): (v: seq<Task>)
    ensures |v| <= MaxVisible
    ensures |v| == if |ts| < MaxVisible then |ts| else MaxVisible
    ensures v == ts[..|v|]
  {
    if |ts| <= MaxVisible then ts else ts[..MaxVisible]
  }

  /**
   * The "+ N more task(s) scheduled later" line: present exactly when more
   * than four tasks remain, and N is the number not shown.
   */
  function Footnote(ts: seq<Task>): (f: Option<string>)
    ensures f.Some? <==> |ts| > |VisibleTasks(ts)|
    ensures f.Some? <==> |ts| > MaxVisible
    ensures f.Some? ==> |ts| - MaxVisible == |ts| - |VisibleTasks(ts)| > 0
    ensures f.Some? ==> "+ " + NatToString(|ts| - MaxVisible) <= f.value
    ensures f.Some? ==>
      f.value == "+ " + NatToString(|ts| - MaxVisible) + " more task" +
                 (if |ts| - MaxVisible == 1 then "" else "s") + " scheduled later"
  {
    var hidden := |ts| - |VisibleTasks(ts)|;
    if hidden > 0 then
      var head := "+ " + NatToString(hidden);
      var tail := " more task" + (if hidden == 1 then "" else "s") + " scheduled later";
      PrefixOfConcat(head, tail);
      Some(head + tail)
    else None
  }

  lemma PrefixOfConcat(a: string, b: string)
    ensures a <= a + b
  {
    assert (a + b)[..|a|] == a;
  }

  /** What `apiCall('/api/tasks')` settles to: the `tasks` field (absent or null is `None`), or the thrown message. */
  datatype TaskFetch = Fetched(tasks: Option<seq<Task>>) | FetchFailed(message: string)

  /** What `apiCall` for marking a task complete settles to. */
  datatype UpdateOutcome = Updated | UpdateFailed(message: string)

  /** The list the card shows after a successful load. */
  function LoadedList(tasks: Option<seq<Task>>): (r: seq<Task>)
    ensures SortedByDue(r)
    ensures forall t :: multiset(r)[t] == if t.status == Completed || tasks.None? then 0 else multiset(tasks.value)[t]
    ensures forall i :: 0 <= i < |r| ==> r[i].status != Completed
    ensures tasks.Some? ==> StableFor(r, PendingOf(tasks.value))
    ensures tasks.None? ==> r == []
  {
    var r := SortByDue(PendingOf(if tasks.Some? then tasks.value else []));
    assert forall i :: 0 <= i < |r| ==> r[i] in multiset(r);
    r
  }

  /** The card's state: the task list, the error text, the loading flag and the task being completed. */
  class FocusPanel {
    var tasks: seq<Task>
    var error: Option<string>
    var loading: bool
    var updatingTaskId: Option<int>
    /** How many `tasks:updated` window events the card has dispatched. */
    var updateEvents: nat

    /** The list holds no completed task and is ordered by due date. */
    ghost predicate Valid()
      reads this
    {
      && SortedByDue(tasks)
      && forall i :: 0 <= i < |tasks| ==> tasks[i].status != Completed
    }

    constructor()
      ensures Valid()
      ensures tasks == [] && error == None && loading && updatingTaskId == None && updateEvents == 0
    {
      tasks := [];
      error := None;
      loading := true;
      updatingTaskId := None;
      updateEvents := 0;
    }

    /** The synchronous start of `loadTasks`, up to the awaited request. */
    method StartLoad()
      modifies this`loading, this`error
      ensures loading && error == None
    {
      loading := true;
      error := None;
    }

    /** The rest of `loadTasks` once the request settles. */
    method FinishLoad(fetched: TaskFetch)
      requires Valid()
      modifies this`tasks, this`error, this`loading
      ensures Valid() && !loading
      ensures fetched.Fetched? ==> tasks == LoadedList(fetched.tasks) && error == old(error)
      ensures fetched.FetchFailed? ==> tasks == old(tasks) && error == Some(fetched.message)
    {
      match fetched {
        case Fetched(list) =>
          tasks := LoadedList(list);
        case FetchFailed(message) =>
          error := Some(message);
      }
      loading := false;
    }

    /** The synchronous start of `markComplete(id)`. */
    method StartComplete(id: int)
      modifies this`updatingTaskId
      ensures updatingTaskId == Some(id)
    {
      updatingTaskId := Some(id);
    }

    /** The rest of `markComplete(id)` once the update request settles. */
    method FinishComplete(id: int, outcome: UpdateOutcome)
      requires Valid()
      modifies this`tasks, this`error, this`updatingTaskId, this`updateEvents
      ensures Valid() && updatingTaskId == None
      ensures outcome.Updated? ==>
        tasks == RemoveTask(old(tasks), id) && error == old(error) && updateEvents == old(updateEvents) + 1
      ensures outcome.UpdateFailed? ==>
        tasks == old(tasks) && error == Some(outcome.message) && updateEvents == old(updateEvents)
    {
      match outcome {
        case Updated =>
          RemoveKeepsOrder(tasks, id);
          RemoveKeepsOpen(tasks, id);
          tasks := RemoveTask(tasks, id);
          updateEvents := updateEvents + 1;
        case UpdateFailed(message) =>
          error := Some(message);
      }
      updatingTaskId := None;
    }
  }
}

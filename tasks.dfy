/**
 * The daily task list: tasks are stored in a map from calendar day to an
 * ordered list, and every handler rewrites only the bucket of `today`.
 */
module Tasks {
  import opened Wrappers
  import opened Text
  import Seqs
  import Store

  /** A calendar day as `toISOString().split('T')[0]` writes it; supplied by the caller. */
  type Date = string

  /** `Date.now().toString()` at creation; supplied by the caller. */
  type TaskId = string

  datatype Task = Task(id: TaskId, text: string, completed: bool, createdAt: string)

  /** The `daily_tasks` value. */
  type Buckets = map<Date, seq<Task>>

  /** `tasksByDate[today] || []`: a day without a bucket reads as the empty list. */
  function TasksOn(byDate: Buckets, day: Date): (r: seq<Task>)
    ensures day !in byDate ==> r == []
    ensures day in byDate ==> r == byDate[day]
  {
    if day in byDate then byDate[day] else []
  }

  /** Every day other than `day` has the same bucket (or lack of one) in both maps. */
  ghost predicate OthersUnchanged(before: Buckets, after: Buckets, day: Date) {
    forall d :: d != day ==> (d in after <==> d in before) && (d in before ==> after[d] == before[d])
  }

  /** `updateTasks`: today's bucket becomes newTasks and nothing else changes. */
  function WithBucket(byDate: Buckets, today: Date, newTasks: seq<Task>): (r: Buckets)
    ensures today in r && TasksOn(r, today) == newTasks
    ensures OthersUnchanged(byDate, r, today)
  {
    byDate[today := newTasks]
  }

  /** `[...tasks, task]` with a fresh, not yet completed task. */
  function Appended(tasks: seq<Task>, id: TaskId, text: string, createdAt: string): (r: seq<Task>)
    ensures |r| == |tasks| + 1 && r[..|tasks|] == tasks
    ensures r[|tasks|] == Task(id, text, false, createdAt)
  {
    tasks + [Task(id, text, false, createdAt)]
  }

  function FlipIfId(t: Task, id: TaskId): Task {
    if t.id == id then t.(completed := !t.completed) else t
  }

  /** `toggleTask`'s map: flips `completed` on exactly the tasks carrying id. */
  function Toggled(tasks: seq<Task>, id: TaskId): (r: seq<Task>)
    ensures |r| == |tasks|
    ensures forall i :: 0 <= i < |tasks| ==>
      && r[i].id == tasks[i].id && r[i].text == tasks[i].text && r[i].createdAt == tasks[i].createdAt
      && (r[i].completed <==> (tasks[i].completed != (tasks[i].id == id)))
  {
    Seqs.Map(tasks, (t: Task) => FlipIfId(t, id))
  }

  /** `deleteTask`'s filter: the tasks whose id differs from id, in order. */
  function Without(tasks: seq<Task>, id: TaskId): (r: seq<Task>)
    ensures forall i :: 0 <= i < |r| ==> r[i].id != id && r[i] in tasks
    ensures forall i :: 0 <= i < |tasks| && tasks[i].id != id ==> tasks[i] in r
  {
    Seqs.Filter(tasks, (t: Task) => t.id != id)
  }

  function RetextIfEditing(t: Task, editingId: Option<TaskId>, text: string): Task {
    if Some(t.id) == editingId then t.(text := text) else t
  }

  /** `saveEdit`'s map: the task being edited gets the new text; no other field and no other task changes. */
  function Retexted(tasks: seq<Task>, editingId: Option<TaskId>, text: string): (r: seq<Task>)
    ensures |r| == |tasks|
    ensures forall i :: 0 <= i < |tasks| ==>
      && r[i].id == tasks[i].id && r[i].completed == tasks[i].completed && r[i].createdAt == tasks[i].createdAt
      && r[i].text == (if Some(tasks[i].id) == editingId then text else tasks[i].text)
  {
    Seqs.Map(tasks, (t: Task) => RetextIfEditing(t, editingId, text))
  }

  /** `addTask`: text that is blank after trimming is refused; otherwise one task goes to the end of today's list. */
  function AddTaskTo(byDate: Buckets, today: Date, text: string, id: TaskId, createdAt: string): (r: Buckets)
    ensures IsBlank(text) ==> r == byDate
    ensures !IsBlank(text) ==>
      && TasksOn(r, today) == TasksOn(byDate, today) + [Task(id, text, false, createdAt)]
      && OthersUnchanged(byDate, r, today)
  {
    if Trim(text) == "" then byDate
    else WithBucket(byDate, today, Appended(TasksOn(byDate, today), id, text, createdAt))
  }

  /** `toggleTask`: today's list is toggled; no other day changes. */
  function ToggleTaskIn(byDate: Buckets, today: Date, id: TaskId): (r: Buckets)
    ensures TasksOn(r, today) == Toggled(TasksOn(byDate, today), id)
    ensures |TasksOn(r, today)| == |TasksOn(byDate, today)|
    ensures OthersUnchanged(byDate, r, today)
  {
    WithBucket(byDate, today, Toggled(TasksOn(byDate, today), id))
  }

  /** `deleteTask`: today's list loses the tasks carrying id; no other day changes. */
  function DeleteTaskFrom(byDate: Buckets, today: Date, id: TaskId): (r: Buckets)
    ensures TasksOn(r, today) == Without(TasksOn(byDate, today), id)
    ensures |TasksOn(r, today)| <= |TasksOn(byDate, today)|
    ensures OthersUnchanged(byDate, r, today)
  {
    WithBucket(byDate, today, Without(TasksOn(byDate, today), id))
  }

  /** `saveEdit`: blank text is refused; otherwise only the edited task's text changes. */
  function SaveEditIn(byDate: Buckets, today: Date, editingId: Option<TaskId>, text: string): (r: Buckets)
    ensures IsBlank(text) ==> r == byDate
    ensures !IsBlank(text) ==> TasksOn(r, today) == Retexted(TasksOn(byDate, today), editingId, text)
    ensures !IsBlank(text) ==> OthersUnchanged(byDate, r, today)
  {
    if Trim(text) == "" then byDate
    else WithBucket(byDate, today, Retexted(TasksOn(byDate, today), editingId, text))
  }

  predicate IsDone(t: Task) {
    t.completed
  }

  /** `completedCount`. */
  function CompletedCount(tasks: seq<Task>): (n: nat)
    ensures n <= |tasks|
  {
    Seqs.Count(tasks, IsDone)
  }

  /** `progress`: 0 for an empty list, otherwise the completed share in percent. */
  function Progress(tasks: seq<Task>): (p: real)
    ensures |tasks| == 0 ==> p == 0.0
    ensures 0.0 <= p <= 100.0
    ensures |tasks| > 0 && CompletedCount(tasks) == |tasks| ==> p == 100.0
  {
    Seqs.Percent(CompletedCount(tasks), |tasks|)
  }

  /** Toggling the same id twice gives back the list. */
  lemma ToggleInvolution(tasks: seq<Task>, id: TaskId)
    ensures Toggled(Toggled(tasks, id), id) == tasks
  {
    var twice := Toggled(Toggled(tasks, id), id);
    assert forall i :: 0 <= i < |tasks| ==> twice[i] == tasks[i];
  }

  /** At the map level, toggling twice restores today's list and leaves the other days alone. */
  lemma ToggleTaskTwice(byDate: Buckets, today: Date, id: TaskId)
    ensures TasksOn(ToggleTaskIn(ToggleTaskIn(byDate, today, id), today, id), today) == TasksOn(byDate, today)
    ensures OthersUnchanged(byDate, ToggleTaskIn(ToggleTaskIn(byDate, today, id), today, id), today)
  {
    ToggleInvolution(TasksOn(byDate, today), id);
  }

  /** Deleting an id no task carries leaves the list as it is. */
  lemma DeleteAbsentIsNoop(tasks: seq<Task>, id: TaskId)
    requires forall i :: 0 <= i < |tasks| ==> tasks[i].id != id
    ensures Without(tasks, id) == tasks
  {
    Seqs.FilterKeepsAll(tasks, (t: Task) => t.id != id);
  }

  /** Deletion keeps the surviving tasks in their original order. */
  lemma DeleteKeepsOrder(tasks: seq<Task>, id: TaskId)
    ensures Seqs.IsSubsequence(Without(tasks, id), tasks)
  {
    Seqs.FilterIsSubsequence(tasks, (t: Task) => t.id != id);
  }

  /** Adding a task with a fresh id and then deleting that id restores today's list. */
  lemma AddThenDeleteRestores(byDate: Buckets, today: Date, text: string, id: TaskId, createdAt: string)
    requires forall i :: 0 <= i < |TasksOn(byDate, today)| ==> TasksOn(byDate, today)[i].id != id
    ensures TasksOn(DeleteTaskFrom(AddTaskTo(byDate, today, text, id, createdAt), today, id), today) == TasksOn(byDate, today)
  {
    var before := TasksOn(byDate, today);
    if !IsBlank(text) {
      Seqs.FilterConcat(before, [Task(id, text, false, createdAt)], (t: Task) => t.id != id);
      DeleteAbsentIsNoop(before, id);
    } else {
      DeleteAbsentIsNoop(before, id);
    }
  }

  /** Saving an edit keyed to an id no task carries leaves today's list as it is. */
  lemma EditAbsentIsNoop(tasks: seq<Task>, editingId: Option<TaskId>, text: string)
    requires forall i :: 0 <= i < |tasks| ==> Some(tasks[i].id) != editingId
    ensures Retexted(tasks, editingId, text) == tasks
  {
  }

  /** The scenario "add Buy milk, toggle it, delete it" on an empty day. */
  lemma BuyMilkScenario(byDate: Buckets, id: TaskId, createdAt: string)
    requires "2024-01-01" !in byDate
    ensures var added := AddTaskTo(byDate, "2024-01-01", "Buy milk", id, createdAt);
      && TasksOn(added, "2024-01-01") == [Task(id, "Buy milk", false, createdAt)]
      && var toggled := ToggleTaskIn(added, "2024-01-01", id);
      && TasksOn(toggled, "2024-01-01") == [Task(id, "Buy milk", true, createdAt)]
      && TasksOn(DeleteTaskFrom(toggled, "2024-01-01", id), "2024-01-01") == []
  {
    assert !IsSpace('B');
    var added := AddTaskTo(byDate, "2024-01-01", "Buy milk", id, createdAt);
    var toggled := ToggleTaskIn(added, "2024-01-01", id);
    var one := TasksOn(toggled, "2024-01-01");
    assert one == [Task(id, "Buy milk", true, createdAt)];
    assert Without(one, id) == Seqs.Filter(one, (t: Task) => t.id != id);
    assert one[1..] == [];
  }

  /** The Tasks view: the stored buckets plus the input buffers of its form and its inline editor. */
  class TasksPage {
    var tasksByDate: Buckets
    var newTask: string
    var editingId: Option<TaskId>
    var editText: string

    /** Mounting: the store starts from its stored copy or `{}`; the buffers start empty. */
    constructor (stored: Option<Buckets>)
      ensures tasksByDate == Store.Initial(stored, map[])
      ensures newTask == "" && editingId == None && editText == ""
    {
      tasksByDate := Store.Initial(stored, map[]);
      newTask := "";
      editingId := None;
      editText := "";
    }

    /** `tasks`: the list shown for today. */
    function TodayTasks(today: Date): (r: seq<Task>)
      reads this
      ensures today !in tasksByDate ==> r == []
      ensures today in tasksByDate ==> r == tasksByDate[today]
    {
      TasksOn(tasksByDate, today)
    }

    /** `updateTasks`, writing through the setter with a function of the previous map. */
    method UpdateTasks(today: Date, newTasks: seq<Task>)
      modifies this
      ensures tasksByDate == WithBucket(old(tasksByDate), today, newTasks)
      ensures newTask == old(newTask) && editingId == old(editingId) && editText == old(editText)
    {
      tasksByDate := Store.Next(tasksByDate, Store.Update((prev: Buckets) => prev[today := newTasks]));
    }

    /** The form's input. */
    method TypeTask(text: string)
      modifies this
      ensures newTask == text
      ensures tasksByDate == old(tasksByDate) && editingId == old(editingId) && editText == old(editText)
    {
      newTask := text;
    }

    /** `addTask`: refused text leaves the input as it is; accepted text clears it. */
    method AddTask(today: Date, id: TaskId, createdAt: string)
      modifies this
      ensures tasksByDate == AddTaskTo(old(tasksByDate), today, old(newTask), id, createdAt)
      ensures newTask == if IsBlank(old(newTask)) then old(newTask) else ""
      ensures editingId == old(editingId) && editText == old(editText)
    {
      if Trim(newTask) == "" {
        return;
      }
      UpdateTasks(today, TodayTasks(today) + [Task(id, newTask, false, createdAt)]);
      newTask := "";
    }

    method ToggleTask(today: Date, id: TaskId)
      modifies this
      ensures tasksByDate == ToggleTaskIn(old(tasksByDate), today, id)
      ensures newTask == old(newTask) && editingId == old(editingId) && editText == old(editText)
    {
      UpdateTasks(today, Toggled(TodayTasks(today), id));
    }

    method DeleteTask(today: Date, id: TaskId)
      modifies this
      ensures tasksByDate == DeleteTaskFrom(old(tasksByDate), today, id)
      ensures newTask == old(newTask) && editingId == old(editingId) && editText == old(editText)
    {
      UpdateTasks(today, Without(TodayTasks(today), id));
    }

    /** `startEditing`: the editor opens on the task's id and text. */
    method StartEditing(task: Task)
      modifies this
      ensures editingId == Some(task.id) && editText == task.text
      ensures tasksByDate == old(tasksByDate) && newTask == old(newTask)
    {
      editingId := Some(task.id);
      editText := task.text;
    }

    /** The editor's input. */
    method TypeEdit(text: string)
      modifies this
      ensures editText == text
      ensures tasksByDate == old(tasksByDate) && newTask == old(newTask) && editingId == old(editingId)
    {
      editText := text;
    }

    /** `saveEdit`: blank text changes nothing; otherwise the text is written and the editor closes. */
    method SaveEdit(today: Date)
      modifies this
      ensures tasksByDate == SaveEditIn(old(tasksByDate), today, old(editingId), old(editText))
      ensures IsBlank(old(editText)) ==> editingId == old(editingId) && editText == old(editText)
      ensures !IsBlank(old(editText)) ==> editingId == None && editText == ""
      ensures newTask == old(newTask)
    {
      if Trim(editText) == "" {
        return;
      }
      UpdateTasks(today, Retexted(TodayTasks(today), editingId, editText));
      editingId := None;
      editText := "";
    }

    /** `cancelEdit`: closes the editor without touching the store. */
    method CancelEdit()
      modifies this
      ensures editingId == None && editText == ""
      ensures tasksByDate == old(tasksByDate) && newTask == old(newTask)
    {
      editingId := None;
      editText := "";
    }
  }
}

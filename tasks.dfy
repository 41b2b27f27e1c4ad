/**
 * The task manager section: the tab views over the task list, the tab badges
 * and quick stats, and the handlers that turn user input into UPDATE_TASK,
 * ADD_TASK and DELETE_TASK actions.
 */
module Tasks {
  import opened Optional
  import opened Text
  import opened Seqs
  import opened State
  import opened Reducer
  import opened Provider

  /** Whether a task is listed on a tab: the done tab lists the completed tasks, the others their open tasks. */
  predicate Shows(tab: TaskCategory, t: Task) {
    if tab == Done then t.completed else t.category == tab && !t.completed
  }

  /** The tasks listed on the active tab, in list order. */
  function View(tasks: seq<Task>, tab: TaskCategory): seq<Task> {
    Filter(tasks, (t: Task) => Shows(tab, t))
  }

  /** The done view is exactly the completed tasks; the other views are the open tasks of their category; all keep list order. */
  lemma ViewContents(tasks: seq<Task>, tab: TaskCategory)
    ensures forall t :: t in View(tasks, Done) <==> t in tasks && t.completed
    ensures tab != Done ==> forall t :: t in View(tasks, tab) <==> t in tasks && t.category == tab && !t.completed
    ensures IsSubsequence(View(tasks, tab), tasks)
    ensures forall more :: View(tasks + more, tab) == View(tasks, tab) + View(more, tab)
  {
    FilterIsSubsequence(tasks, (t: Task) => Shows(tab, t));
    forall more: seq<Task> ensures View(tasks + more, tab) == View(tasks, tab) + View(more, tab) {
      FilterConcat(tasks, more, (t: Task) => Shows(tab, t));
    }
  }

  /** The badge on a tab, as the tab bar counts it. */
  function Badge(tasks: seq<Task>, tab: TaskCategory): nat {
    if tab == Done then Count(tasks, (t: Task) => t.completed)
    else Count(tasks, (t: Task) => t.category == tab && !t.completed)
  }

  /** Each badge equals the length of the view it labels. */
  lemma BadgeIsViewLength(tasks: seq<Task>, tab: TaskCategory)
    ensures Badge(tasks, tab) == |View(tasks, tab)|
  {
    if tab == Done {
      CountIsFilterLength(tasks, (t: Task) => t.completed, (t: Task) => Shows(tab, t));
    } else {
      CountIsFilterLength(tasks, (t: Task) => t.category == tab && !t.completed, (t: Task) => Shows(tab, t));
    }
  }

  function CompletedCount(tasks: seq<Task>): nat {
    Count(tasks, (t: Task) => t.completed)
  }

  function RemainingCount(tasks: seq<Task>): nat {
    Count(tasks, (t: Task) => !t.completed)
  }

  /** The quick stats: completed and remaining add up to the total. */
  lemma StatsAddUp(tasks: seq<Task>)
    ensures CompletedCount(tasks) + RemainingCount(tasks) == |tasks|
  {
    CountComplement(tasks, (t: Task) => t.completed, (t: Task) => !t.completed);
  }

  /** Where `tasks.find(t => t.id === id)` stops: the first task with the id, or the length. */
  function FirstWithId(tasks: seq<Task>, id: string): (k: nat)
    ensures k <= |tasks|
    ensures k < |tasks| ==> tasks[k].id == id
    ensures forall j :: 0 <= j < k ==> tasks[j].id != id
  {
    if tasks == [] then 0
    else if tasks[0].id == id then 0
    else 1 + FirstWithId(tasks[1..], id)
  }

  /** `tasks.find(t => t.id === id)` */
  function Find(tasks: seq<Task>, id: string): Option<Task> {
    var k := FirstWithId(tasks, id);
    if k < |tasks| then Some(tasks[k]) else None
  }

  /**
   * handleAddTask: nothing for a blank title; otherwise an open task with the
   * trimmed title, filed under the active tab, or under the inbox when the
   * done tab is active.
   */
  function AddTaskAction(title: string, tab: TaskCategory): (r: Option<Action>)
    ensures r.None? <==> IsBlank(title)
    ensures r.Some? ==> r.value.AddTask? && r.value.draft.title == Trim(title) && r.value.draft.title != []
    ensures r.Some? ==> !r.value.draft.completed && r.value.draft.category == (if tab == Done then Inbox else tab)
  {
    var t := Trim(title);
    if t == [] then None
    else Some(AddTask(TaskDraft(t, false, if tab == Done then Inbox else tab, None)))
  }

  /** A task added on the inbox or today tab is listed last on that tab; one added on the done tab is listed last in the inbox. */
  lemma AddedTaskIsListed(s: AppState, title: string, tab: TaskCategory, now: nat)
    requires AddTaskAction(title, tab).Some?
    ensures var r := Apply(s, AddTaskAction(title, tab).value, now);
      var home := if tab == Done then Inbox else tab;
      |View(r.tasks, home)| == |View(s.tasks, home)| + 1
      && View(r.tasks, home)[..|View(s.tasks, home)|] == View(s.tasks, home)
      && View(r.tasks, home)[|View(s.tasks, home)|] == Stamp(AddTaskAction(title, tab).value.draft, now)
      && View(r.tasks, Done) == View(s.tasks, Done)
  {
    var a := AddTaskAction(title, tab).value;
    var t := Stamp(a.draft, now);
    var home := if tab == Done then Inbox else tab;
    ViewContents(s.tasks, home);
    ViewContents(s.tasks, Done);
    assert View([t], home) == [t];
    assert View([t], Done) == [];
  }

  /** handleToggleTask: flips `completed`; completing also files the task under done. */
  function ToggleAction(tasks: seq<Task>, id: string): Option<Action> {
    match Find(tasks, id)
    case None => None
    case Some(t) =>
      Some(UpdateTask(id, NoTaskChanges.(completed := Some(!t.completed),
                                         category := Some(if !t.completed then Done else t.category))))
  }

  /**
   * Toggling the first task with an id flips its completion; completing it
   * moves it to done, reopening it leaves its category. Every later task with
   * the same id receives the same patch, computed from the first one, and no
   * other task changes.
   */
  lemma ToggleFlips(s: AppState, id: string, now: nat)
    requires Find(s.tasks, id).Some?
    ensures var k := FirstWithId(s.tasks, id);
      var t := s.tasks[k];
      var r := Apply(s, ToggleAction(s.tasks, id).value, now);
      && |r.tasks| == |s.tasks| && r == s.(tasks := r.tasks)
      && r.tasks[k] == t.(completed := !t.completed, category := if t.completed then t.category else Done)
      && (forall i :: 0 <= i < |s.tasks| && s.tasks[i].id == id ==>
            r.tasks[i] == s.tasks[i].(completed := !t.completed, category := if t.completed then t.category else Done))
      && forall i :: 0 <= i < |s.tasks| && s.tasks[i].id != id ==> r.tasks[i] == s.tasks[i]
  {
  }

  /**
   * A task completed and then reopened by toggling is filed under done while
   * open, so no tab lists it. When every task with its id was open, it still
   * counts as a task that remains: the total and the remaining count are as
   * before.
   */
  lemma ToggledBackIsUnlisted(s: AppState, id: string, now: nat)
    requires Find(s.tasks, id).Some? && !Find(s.tasks, id).value.completed
    ensures var k := FirstWithId(s.tasks, id);
      var s1 := Apply(s, ToggleAction(s.tasks, id).value, now);
      && ToggleAction(s1.tasks, id).Some?
      && var s2 := Apply(s1, ToggleAction(s1.tasks, id).value, now);
      && |s2.tasks| == |s.tasks|
      && s2.tasks[k] == s.tasks[k].(category := Done)
      && !s2.tasks[k].completed
      && (forall tab :: !Shows(tab, s2.tasks[k]) && s2.tasks[k] !in View(s2.tasks, tab))
      && ((forall i :: 0 <= i < |s.tasks| && s.tasks[i].id == id ==> !s.tasks[i].completed) ==>
            RemainingCount(s2.tasks) == RemainingCount(s.tasks))
  {
    var k := FirstWithId(s.tasks, id);
    ToggleFlips(s, id, now);
    var s1 := Apply(s, ToggleAction(s.tasks, id).value, now);
    assert FirstWithId(s1.tasks, id) == k by {
      assert s1.tasks[k].id == id;
      assert forall j :: 0 <= j < k ==> s1.tasks[j] == s.tasks[j];
    }
    ToggleFlips(s1, id, now);
    var s2 := Apply(s1, ToggleAction(s1.tasks, id).value, now);
    if forall i :: 0 <= i < |s.tasks| && s.tasks[i].id == id ==> !s.tasks[i].completed {
      assert forall i :: 0 <= i < |s.tasks| ==> s2.tasks[i].completed == s.tasks[i].completed;
      CountPointwise(s2.tasks, s.tasks, (t: Task) => !t.completed);
    }
  }

  /** handleSaveEdit: the trimmed text replaces the title when a task is being edited and the text is not blank. */
  function SaveEditAction(editing: Option<string>, text: string): (r: Option<Action>)
    ensures r.Some? <==> editing.Some? && editing.value != "" && !IsBlank(text)
    ensures r.Some? ==> r.value == UpdateTask(editing.value, NoTaskChanges.(title := Some(Trim(text))))
  {
    if editing.Some? && editing.value != "" && Trim(text) != [] then
      Some(UpdateTask(editing.value, NoTaskChanges.(title := Some(Trim(text)))))
    else None
  }

  /** handleMoveTask */
  function MoveAction(id: string, tab: TaskCategory): Action {
    UpdateTask(id, NoTaskChanges.(category := Some(tab)))
  }

  /** Moving a task changes its category and nothing else, and no other task. */
  lemma MoveChangesOnlyCategory(s: AppState, id: string, tab: TaskCategory, now: nat)
    ensures var r := Apply(s, MoveAction(id, tab), now);
      && |r.tasks| == |s.tasks| && r == s.(tasks := r.tasks)
      && forall i :: 0 <= i < |s.tasks| ==>
           r.tasks[i] == if s.tasks[i].id == id then s.tasks[i].(category := tab) else s.tasks[i]
  {
  }

  /** A saved edit changes the title of the tasks with that id, and nothing else. */
  lemma SaveEditChangesOnlyTitle(s: AppState, editing: Option<string>, text: string, now: nat)
    requires SaveEditAction(editing, text).Some?
    ensures var r := Apply(s, SaveEditAction(editing, text).value, now);
      && |r.tasks| == |s.tasks| && r == s.(tasks := r.tasks)
      && forall i :: 0 <= i < |s.tasks| ==>
           r.tasks[i] == if s.tasks[i].id == editing.value then s.tasks[i].(title := Trim(text)) else s.tasks[i]
  {
  }

  /** The task manager section with its own input state. */
  class TaskManager {
    const store: Store
    var activeCategory: TaskCategory
    var newTaskTitle: string
    var editingTask: Option<string>
    var editValue: string

    constructor (store: Store)
      ensures this.store == store
      ensures activeCategory == Inbox && newTaskTitle == "" && editingTask == None && editValue == ""
    {
      this.store := store;
      activeCategory, newTaskTitle, editingTask, editValue := Inbox, "", None, "";
    }

    method SelectTab(tab: TaskCategory)
      modifies this`activeCategory
      ensures activeCategory == tab
    {
      activeCategory := tab;
    }

    method TypeTitle(text: string)
      modifies this`newTaskTitle
      ensures newTaskTitle == text
    {
      newTaskTitle := text;
    }

    /** handleAddTask: dispatches the new task and clears the input, or does nothing for a blank title. */
    method SubmitNewTask(now: nat)
      requires store.Synced()
      modifies this`newTaskTitle, store
      ensures var a := AddTaskAction(old(newTaskTitle), activeCategory);
        && store.state == (if a.Some? then Apply(old(store.state), a.value, now) else old(store.state))
        && newTaskTitle == (if a.Some? then "" else old(newTaskTitle))
      ensures store.Synced()
    {
      var a := AddTaskAction(newTaskTitle, activeCategory);
      if a.Some? {
        store.Dispatch(a.value, now);
        newTaskTitle := "";
      }
    }

    method Toggle(id: string, now: nat)
      requires store.Synced()
      modifies store
      ensures var a := ToggleAction(old(store.state.tasks), id);
        store.state == if a.Some? then Apply(old(store.state), a.value, now) else old(store.state)
      ensures store.Synced()
    {
      var a := ToggleAction(store.state.tasks, id);
      if a.Some? {
        store.Dispatch(a.value, now);
      }
    }

    /** handleEditTask */
    method StartEdit(t: Task)
      modifies this`editingTask, this`editValue
      ensures editingTask == Some(t.id) && editValue == t.title
    {
      editingTask, editValue := Some(t.id), t.title;
    }

    method TypeEdit(text: string)
      modifies this`editValue
      ensures editValue == text
    {
      editValue := text;
    }

    /** handleSaveEdit: dispatches a non-blank edit, and leaves edit mode either way. */
    method SaveEdit(now: nat)
      requires store.Synced()
      modifies this`editingTask, this`editValue, store
      ensures var a := SaveEditAction(old(editingTask), old(editValue));
        store.state == if a.Some? then Apply(old(store.state), a.value, now) else old(store.state)
      ensures editingTask == None && editValue == ""
      ensures store.Synced()
    {
      var a := SaveEditAction(editingTask, editValue);
      if a.Some? {
        store.Dispatch(a.value, now);
      }
      editingTask, editValue := None, "";
    }

    /** handleCancelEdit */
    method CancelEdit()
      modifies this`editingTask, this`editValue
      ensures editingTask == None && editValue == ""
    {
      editingTask, editValue := None, "";
    }

    /** handleDeleteTask */
    method Delete(id: string, now: nat)
      requires store.Synced()
      modifies store
      ensures store.state == Apply(old(store.state), DeleteTask(id), now)
      ensures store.Synced()
    {
      store.Dispatch(DeleteTask(id), now);
    }

    /** handleMoveTask */
    method Move(id: string, tab: TaskCategory, now: nat)
      requires store.Synced()
      modifies store
      ensures store.state == Apply(old(store.state), MoveAction(id, tab), now)
      ensures store.Synced()
    {
      store.Dispatch(MoveAction(id, tab), now);
    }
  }
}

/**
 * The task-list controller. It owns the full task list, a filtered copy that is rebuilt from the
 * full list, the status filter and the search text, the selection, and the id counter. The two
 * dialogs become parameters: the text the user typed, and whether the user answered Yes; the clock
 * becomes a timestamp parameter.
 */
module MainViewModels {
  import opened Wrappers
  import opened Text
  import opened Models
  import opened Sequences
  import opened Filtering
  import opened BaseViewModels

  /** The commands the constructor builds, one per button. */
  datatype CommandKind =
    | AddTaskCommand
    | EditTaskCommand
    | DeleteTaskCommand
    | ToggleStatusCommand
    | ShowAllCommand
    | ShowActiveCommand
    | ShowCompletedCommand

  /** Every id is at least 1 and below the counter, and ids strictly increase along the list. */
  predicate IdsAscending(ds: seq<TaskData>, nextId: int)
  {
    var ids := Ids(ds);
    && (forall i :: 0 <= i < |ids| ==> 1 <= ids[i] < nextId)
    && (forall i, j :: 0 <= i < j < |ids| ==> ids[i] < ids[j])
  }

  /** The ids of `ds`, position by position. */
  function Ids(ds: seq<TaskData>): (ids: seq<int>)
  {
    seq(|ds|, i requires 0 <= i < |ds| => ds[i].id)
  }

  /** Appending a task appends its id; dropping the first task drops the first id. */
  lemma IdsSnocAndTail(ds: seq<TaskData>, d: TaskData)
    ensures Ids(ds + [d]) == Ids(ds) + [d.id]
    ensures |ds| > 0 ==> Ids(ds[1..]) == Ids(ds)[1..]
  {
  }

  /** Reading the tasks after the first is dropping the first of the values read. */
  lemma SnapshotTail(ts: seq<TaskItem>)
    requires |ts| > 0
    ensures Snapshot(ts[1..]) == Snapshot(ts)[1..]
  {
  }

  /** Appending a task that carries the counter's value keeps the ids ascending below the next value. */
  lemma SnocKeepsIdsAscending(ds: seq<TaskData>, d: TaskData, nextId: int)
    requires IdsAscending(ds, nextId) && 1 <= d.id == nextId
    ensures IdsAscending(ds + [d], nextId + 1)
  {
    assert Ids(ds + [d]) == Ids(ds) + [d.id];
  }

  /** Removing a task keeps the ids of the others ascending, and the removed task is gone. */
  lemma RemoveKeepsIdsAscending(ts: seq<TaskItem>, x: TaskItem, nextId: int)
    requires IdsAscending(Snapshot(ts), nextId)
    ensures IdsAscending(Snapshot(Remove(ts, x)), nextId)
    ensures x !in Remove(ts, x)
  {
    var ds := Snapshot(ts);
    forall i, j | 0 <= i < j < |ts|
      ensures ts[i] != ts[j]
    {
      assert Ids(ds)[i] < Ids(ds)[j];
    }
    RemoveDistinct(ts, x);
    if x in ts {
      RemoveKeepsOrder(ts, x);
      var r, n := Remove(ts, x), IndexOf(ts, x);
      var rs := Snapshot(r);
      forall i | 0 <= i < |r|
        ensures Ids(rs)[i] == Ids(ds)[if i < n then i else i + 1]
      {
      }
    }
  }

  /**
   * The id the `k`-th task ever added (counting from 0) receives from the counter as the source
   * declares it: a 32-bit `int` starting at 1 whose `++` wraps silently from 2^31 - 1 to -2^31.
   */
  function IssuedId32(k: nat): (id: int)
    ensures -0x8000_0000 <= id < 0x8000_0000
    ensures (k + 1 - id) % 0x1_0000_0000 == 0
  {
    var n := (k + 1) % 0x1_0000_0000;
    if n < 0x8000_0000 then n else n - 0x1_0000_0000
  }

  /**
   * With the 32-bit counter the 2^31-th task gets a negative id, and the (2^32 + 1)-th task gets
   * id 1 again, the id of the first task: ids are not unique once the counter wraps.
   */
  lemma IssuedId32Repeats()
    ensures IssuedId32(0x7FFF_FFFE) == 0x7FFF_FFFF
    ensures IssuedId32(0x7FFF_FFFF) == -0x8000_0000
    ensures IssuedId32(0) == 1 && IssuedId32(0x1_0000_0000) == 1
  {
  }

  /** Appending the four elements of `d` one at a time appends `d`. */
  lemma AppendFour<T>(s: seq<T>, d: seq<T>)
    requires |d| == 4
    ensures s + [d[0]] + [d[1]] + [d[2]] + [d[3]] == s + d
  {
    assert d == [d[0], d[1], d[2], d[3]];
  }

  /** The titles and descriptions of the four sample tasks. */
  const LearnTitle: string := "Изучить WPF"
  const LearnDescription: string := "Основы WPF и XAML"
  const ExploreTitle: string := "Разобраться с DevExpress"
  const ExploreDescription: string := "Установить и попробовать компоненты"
  const BuildTitle: string := "Создать тестовый проект"
  const BuildDescription: string := "Простое CRUD-приложение"
  const PrepareTitle: string := "Подготовиться к собеседованию"
  const PrepareDescription: string := "Повторить SOLID, DRY, KISS"

  /** The four tasks the controller starts with, numbered from `firstId`. */
  function SampleTasks(firstId: int, now: Timestamp): seq<TaskData>
  {
    [ TaskData(firstId, LearnTitle, LearnDescription, Active, High, now),
      TaskData(firstId + 1, ExploreTitle, ExploreDescription, Active, High, now),
      TaskData(firstId + 2, BuildTitle, BuildDescription, Active, Medium, now),
      TaskData(firstId + 3, PrepareTitle, PrepareDescription, Completed, High, now) ]
  }

  /**
   * A title edit can take a task out of the search result; since editing does not rebuild the
   * filtered list, the list then shows a task that no longer matches.
   */
  lemma TitleEditCanUnmatch()
    ensures var d := TaskData(1, "WPF", "", Active, Medium, 0);
      Matches(d, None, Some("wpf")) && !Matches(d.(title := "C#"), None, Some("wpf"))
  {
    assert StartsWithIgnoreCase("WPF", "wpf");
    assert !ContainsIgnoreCase("", "wpf");
    assert !ContainsIgnoreCase("#", "wpf");
    assert !ContainsIgnoreCase("C#", "wpf");
    assert !IsNullOrWhiteSpace(Some("wpf")) by {
      assert !IsWhiteSpace("wpf"[0]);
    }
  }

  class MainViewModel {
    /** `Tasks`: every task, in the order it was added. */
    var tasks: seq<TaskItem>
    /** `FilteredTasks`: the tasks shown, rebuilt from `tasks`. */
    var filteredTasks: seq<TaskItem>
    var selectedTask: TaskItem?
    var searchText: Option<string>
    var filterStatus: Option<TaskStatus>
    /** `_nextId`: the id the next task receives. */
    var nextId: int
    /** Every id the counter has handed out, oldest first, including those of deleted tasks. */
    ghost var issued: seq<int>
    /** The view model's own `PropertyChanged` announcements. */
    const notifier: BaseViewModel

    /** The counter has handed out exactly 1 .. nextId - 1, and the list's ids ascend below it. */
    ghost predicate Valid()
      reads this`tasks, this`nextId, this`issued, tasks
    {
      && 1 <= nextId
      && |issued| == nextId - 1
      && (forall k :: 0 <= k < |issued| ==> issued[k] == k + 1)
      && IdsAscending(Snapshot(tasks), nextId)
    }

    /** The cache invariant: the filtered list is what `ApplyFilter` would build now. */
    ghost predicate FilterCurrent()
      reads this`tasks, this`filteredTasks, this`filterStatus, this`searchText, tasks
    {
      filteredTasks == Keep(tasks, MatchMask(Snapshot(tasks), filterStatus, searchText))
    }

    /** The constructor: empty lists, no selection, no search, no status filter, then the sample tasks. */
    constructor (now: Timestamp)
      ensures Valid() && FilterCurrent()
      ensures Snapshot(tasks) == SampleTasks(1, now) && filteredTasks == tasks
      ensures nextId == 5 && selectedTask == null && searchText == None && filterStatus == None
      ensures fresh(notifier) && notifier.notifications == []
    {
      tasks, filteredTasks := [], [];
      selectedTask, searchText, filterStatus := null, None, None;
      nextId, issued := 1, [];
      notifier := new BaseViewModel();
      new;
      LoadSampleData(now);
      KeepWithoutCriteria(tasks, Snapshot(tasks), None);
    }

    /** `LoadSampleData`: adds the four sample tasks with consecutive ids. */
    method LoadSampleData(now: Timestamp)
      requires Valid()
      modifies this`tasks, this`filteredTasks, this`nextId, this`issued
      ensures Valid() && FilterCurrent()
      ensures Snapshot(tasks) == old(Snapshot(tasks)) + SampleTasks(old(nextId), now)
      ensures nextId == old(nextId) + 4
    {
      ghost var s0, d := Snapshot(tasks), SampleTasks(nextId, now);
      var learn := AddTaskInternal(LearnTitle, LearnDescription, High, Active, now);
      ghost var s1 := Snapshot(tasks);
      assert s1 == s0 + [d[0]];
      var explore := AddTaskInternal(ExploreTitle, ExploreDescription, High, Active, now);
      ghost var s2 := Snapshot(tasks);
      assert s2 == s1 + [d[1]];
      var build := AddTaskInternal(BuildTitle, BuildDescription, Medium, Active, now);
      ghost var s3 := Snapshot(tasks);
      assert s3 == s2 + [d[2]];
      var prepare := AddTaskInternal(PrepareTitle, PrepareDescription, High, Completed, now);
      assert Snapshot(tasks) == s3 + [d[3]];
      AppendFour(s0, d);
    }

    /**
     * `AddTaskInternal`: the new task takes the counter's value as its id, the counter moves on,
     * the task goes at the end of the list and the filtered list is rebuilt.
     */
    method AddTaskInternal(title: string, description: string, priority: TaskPriority,
                           status: TaskStatus, now: Timestamp) returns (ghost task: TaskItem)
      requires Valid()
      modifies this`tasks, this`filteredTasks, this`nextId, this`issued
      ensures Valid() && FilterCurrent()
      ensures tasks == old(tasks) + [task]
      ensures Snapshot(tasks) == old(Snapshot(tasks)) + [TaskData(old(nextId), title, description, status, priority, now)]
      ensures fresh(task) && task.notifications == []
      ensures task.Data() == TaskData(old(nextId), title, description, status, priority, now)
      ensures old(nextId) !in old(issued) && issued == old(issued) + [old(nextId)]
      ensures nextId == old(nextId) + 1
    {
      ghost var before := Snapshot(tasks);
      var item := new TaskItem(nextId, title, description, priority, status, now);
      task := item;
      issued := issued + [nextId];
      nextId := nextId + 1;
      tasks := tasks + [item];
      ghost var after := Snapshot(tasks);
      forall i | 0 <= i < |before|
        ensures after[i] == before[i]
      {
        assert tasks[i] == old(tasks)[i];
      }
      assert after == before + [item.Data()];
      SnocKeepsIdsAscending(before, item.Data(), old(nextId));
      assert Valid();
      ApplyFilter();
    }

    /**
     * `AddTask`: `enteredTitle` and `enteredDescription` are what the user typed in the two input
     * boxes. A blank title adds nothing; otherwise the task is added with priority Medium, Active.
     */
    method AddTask(enteredTitle: string, enteredDescription: string, now: Timestamp)
      requires Valid()
      modifies this`tasks, this`filteredTasks, this`nextId, this`issued
      ensures Valid()
      ensures IsNullOrWhiteSpace(Some(enteredTitle)) ==> unchanged(this)
      ensures !IsNullOrWhiteSpace(Some(enteredTitle)) ==>
        && FilterCurrent()
        && |tasks| == |old(tasks)| + 1 && tasks == old(tasks) + [tasks[|old(tasks)|]]
        && fresh(tasks[|old(tasks)|])
        && tasks[|old(tasks)|].Data() == TaskData(old(nextId), enteredTitle, enteredDescription, Active, Medium, now)
        && Snapshot(tasks) == old(Snapshot(tasks)) + [TaskData(old(nextId), enteredTitle, enteredDescription, Active, Medium, now)]
        && nextId == old(nextId) + 1
    {
      if IsNullOrWhiteSpace(Some(enteredTitle)) {
        return;
      }
      var added := AddTaskInternal(enteredTitle, enteredDescription, Medium, Active, now);
    }

    /**
     * `EditTask`: `enteredTitle` is what the user typed. With a selection and a non-blank title the
     * selected task's title changes and nothing else does; the filtered list is not rebuilt.
     */
    method EditTask(enteredTitle: string)
      requires Valid()
      modifies selectedTask
      ensures Valid()
      ensures tasks == old(tasks) && filteredTasks == old(filteredTasks)
      ensures selectedTask != null && IsNullOrWhiteSpace(Some(enteredTitle)) ==> unchanged(selectedTask)
      ensures selectedTask != null && !IsNullOrWhiteSpace(Some(enteredTitle)) ==>
        && selectedTask.Data() == old(selectedTask.Data()).(title := enteredTitle)
        && selectedTask.notifications ==
          if old(selectedTask.title) == enteredTitle then old(selectedTask.notifications)
          else old(selectedTask.notifications) + ["Title"]
      ensures forall i :: 0 <= i < |tasks| && tasks[i] != selectedTask ==> Snapshot(tasks)[i] == old(Snapshot(tasks))[i]
    {
      if selectedTask == null {
        return;
      }
      if !IsNullOrWhiteSpace(Some(enteredTitle)) {
        selectedTask.SetTitle(enteredTitle);
        assert Valid() by {
          forall i | 0 <= i < |tasks|
            ensures Ids(Snapshot(tasks))[i] == old(Ids(Snapshot(tasks)))[i]
          {
          }
        }
      }
    }

    /**
     * `DeleteTask`: `confirmed` is whether the user answered Yes. With a selection and a Yes, the
     * first list entry that is the selected object goes and the filtered list is rebuilt. The
     * selection itself is left as it is.
     */
    method DeleteTask(confirmed: bool)
      requires Valid()
      modifies this`tasks, this`filteredTasks
      ensures Valid()
      ensures selectedTask == null || !confirmed ==> unchanged(this)
      ensures selectedTask != null && confirmed ==> tasks == Remove(old(tasks), selectedTask)
      ensures selectedTask != null && confirmed ==> selectedTask !in tasks && selectedTask !in filteredTasks
      ensures selectedTask != null && confirmed && selectedTask in old(tasks) ==> |tasks| == |old(tasks)| - 1
      ensures selectedTask != null && confirmed ==> FilterCurrent()
    {
      if selectedTask != null && confirmed {
        RemoveTask(selectedTask);
        ApplyFilter();
      }
    }

    /** `Tasks.Remove(task)`: the first occurrence of `task` leaves the full list; ids stay ascending. */
    method RemoveTask(task: TaskItem)
      requires Valid()
      modifies this`tasks
      ensures Valid()
      ensures tasks == Remove(old(tasks), task)
      ensures task !in tasks
      ensures task in old(tasks) ==> |tasks| == |old(tasks)| - 1
    {
      RemoveKeepsIdsAscending(tasks, task, nextId);
      tasks := Remove(tasks, task);
    }

    /**
     * `ToggleStatus`: with a selection, the selected task flips between Active and Completed and the
     * filtered list is rebuilt; the full list keeps its members and order.
     */
    method ToggleStatus()
      requires Valid()
      modifies this`filteredTasks, selectedTask
      ensures Valid()
      ensures tasks == old(tasks)
      ensures selectedTask == null ==> unchanged(this)
      ensures selectedTask != null ==>
        && selectedTask.Data() == old(selectedTask.Data()).(status := Toggled(old(selectedTask.status)))
        && selectedTask.notifications == old(selectedTask.notifications) + ["Status"]
        && FilterCurrent()
      ensures forall i :: 0 <= i < |tasks| && tasks[i] != selectedTask ==> Snapshot(tasks)[i] == old(Snapshot(tasks))[i]
    {
      if selectedTask == null {
        return;
      }
      selectedTask.SetStatus(if selectedTask.status == Active then Completed else Active);
      assert Valid() by {
        forall i | 0 <= i < |tasks|
          ensures Ids(Snapshot(tasks))[i] == old(Ids(Snapshot(tasks)))[i]
        {
        }
      }
      ApplyFilter();
    }

    /**
     * The cache invariant read at the value level: the tasks shown are `Filter` of the full list, so
     * every property proved about `Filter` holds of what the grid displays.
     */
    lemma FilteredSnapshot()
      requires FilterCurrent()
      ensures Snapshot(filteredTasks) == Filter(Snapshot(tasks), filterStatus, searchText)
    {
      SnapshotKeep(tasks, MatchMask(Snapshot(tasks), filterStatus, searchText));
    }

    /** `CanEditOrDelete`: the guard of the edit, delete and toggle commands. */
    function CanEditOrDelete(): (enabled: bool)
      reads this`selectedTask
      ensures enabled <==> selectedTask != null
    {
      selectedTask != null
    }

    /** Whether a command is enabled: the add and show commands have no guard. */
    function CanExecute(command: CommandKind): (enabled: bool)
      reads this`selectedTask
      ensures command in {EditTaskCommand, DeleteTaskCommand, ToggleStatusCommand} ==> (enabled <==> CanEditOrDelete())
      ensures command in {AddTaskCommand, ShowAllCommand, ShowActiveCommand, ShowCompletedCommand} ==> enabled
    {
      match command
      case EditTaskCommand | DeleteTaskCommand | ToggleStatusCommand => CanEditOrDelete()
      case _ => true
    }

    /** `ApplyFilter`: clears the filtered list and refills it with the tasks that pass both stages. */
    method ApplyFilter()
      modifies this`filteredTasks
      ensures FilterCurrent()
      ensures forall t :: t in filteredTasks ==> t in tasks
      ensures old(Valid()) ==> Valid()
      ensures tasks == old(tasks)
      ensures selectedTask == old(selectedTask)
    {
      var shown := MatchingTasks();
      filteredTasks := shown;
    }

    /**
     * The selection `ApplyFilter` appends, computed in one pass over the full list: each task, in
     * order, that passes the status stage and then the search stage.
     */
    method MatchingTasks() returns (shown: seq<TaskItem>)
      ensures shown == Keep(tasks, MatchMask(Snapshot(tasks), filterStatus, searchText))
      ensures forall t :: t in shown ==> t in tasks
    {
      ghost var mask := MatchMask(Snapshot(tasks), filterStatus, searchText);
      shown := [];
      var i := 0;
      while i < |tasks|
        invariant 0 <= i <= |tasks|
        invariant shown == Keep(tasks[..i], mask[..i])
        invariant forall t :: t in shown ==> t in tasks
      {
        var task := tasks[i];
        KeepPrefixStep(tasks, mask, i);
        if (filterStatus.None? || task.status == filterStatus.value)
           && (IsNullOrWhiteSpace(searchText)
               || ContainsIgnoreCase(task.title, searchText.value)
               || ContainsIgnoreCase(task.description, searchText.value))
        {
          shown := shown + [task];
        }
        i := i + 1;
      }
      assert tasks[..i] == tasks && mask[..i] == mask;
    }

    /** The `SelectedTask` setter: announces a change of selection; it does not rebuild the filtered list. */
    method SetSelectedTask(value: TaskItem?)
      modifies this`selectedTask, notifier
      ensures selectedTask == value
      ensures notifier.notifications ==
        if old(selectedTask) == value then old(notifier.notifications)
        else old(notifier.notifications) + ["SelectedTask"]
    {
      var changed;
      selectedTask, changed := notifier.SetProperty(selectedTask, value, "SelectedTask");
    }

    /** The `SearchText` setter: only a different value is stored, announced and re-filtered. */
    method SetSearchText(value: Option<string>)
      modifies this`searchText, this`filteredTasks, notifier
      ensures searchText == value
      ensures old(searchText) == value ==>
        filteredTasks == old(filteredTasks) && notifier.notifications == old(notifier.notifications)
      ensures old(searchText) != value ==>
        FilterCurrent() && notifier.notifications == old(notifier.notifications) + ["SearchText"]
    {
      var changed;
      searchText, changed := notifier.SetProperty(searchText, value, "SearchText");
      if changed {
        ApplyFilter();
      }
    }

    /** The `FilterStatus` setter: only a different value is stored, announced and re-filtered. */
    method SetFilterStatus(value: Option<TaskStatus>)
      modifies this`filterStatus, this`filteredTasks, notifier
      ensures filterStatus == value
      ensures old(filterStatus) == value ==>
        filteredTasks == old(filteredTasks) && notifier.notifications == old(notifier.notifications)
      ensures old(filterStatus) != value ==>
        FilterCurrent() && notifier.notifications == old(notifier.notifications) + ["FilterStatus"]
    {
      var changed;
      filterStatus, changed := notifier.SetProperty(filterStatus, value, "FilterStatus");
      if changed {
        ApplyFilter();
      }
    }

    /** `ShowAllCommand`'s action: drop the status filter. */
    method ShowAll()
      modifies this`filterStatus, this`filteredTasks, notifier
      ensures filterStatus == None
      ensures old(filterStatus) != None ==> FilterCurrent()
      ensures old(filterStatus) == None ==> filteredTasks == old(filteredTasks)
      ensures notifier.notifications ==
        if old(filterStatus) == None then old(notifier.notifications)
        else old(notifier.notifications) + ["FilterStatus"]
    {
      SetFilterStatus(None);
    }

    /** `ShowActiveCommand`'s action: show only active tasks. */
    method ShowActive()
      modifies this`filterStatus, this`filteredTasks, notifier
      ensures filterStatus == Some(Active)
      ensures old(filterStatus) != Some(Active) ==> FilterCurrent()
      ensures old(filterStatus) == Some(Active) ==> filteredTasks == old(filteredTasks)
      ensures notifier.notifications ==
        if old(filterStatus) == Some(Active) then old(notifier.notifications)
        else old(notifier.notifications) + ["FilterStatus"]
    {
      SetFilterStatus(Some(Active));
    }

    /** `ShowCompletedCommand`'s action: show only completed tasks. */
    method ShowCompleted()
      modifies this`filterStatus, this`filteredTasks, notifier
      ensures filterStatus == Some(Completed)
      ensures old(filterStatus) != Some(Completed) ==> FilterCurrent()
      ensures old(filterStatus) == Some(Completed) ==> filteredTasks == old(filteredTasks)
      ensures notifier.notifications ==
        if old(filterStatus) == Some(Completed) then old(notifier.notifications)
        else old(notifier.notifications) + ["FilterStatus"]
    {
      SetFilterStatus(Some(Completed));
    }
  }

  /** The sample tasks carry consecutive ids from `firstId`. */
  lemma SampleIds(firstId: int, now: Timestamp)
    ensures Ids(SampleTasks(firstId, now)) == [firstId, firstId + 1, firstId + 2, firstId + 3]
  {
  }

  /** A fresh view model with the first sample task selected. */
  method SelectFirstSample(now: Timestamp) returns (vm: MainViewModel)
    ensures fresh(vm) && fresh(vm.notifier) && vm.Valid()
    ensures Ids(Snapshot(vm.tasks)) == [1, 2, 3, 4] && vm.nextId == 5
    ensures vm.selectedTask != null && vm.selectedTask == vm.tasks[0]
  {
    vm := new MainViewModel(now);
    SampleIds(1, now);
    vm.SetSelectedTask(vm.tasks[0]);
  }

  /** A fresh view model on which the first sample task was selected and deleted. */
  method DeleteFirstSample(now: Timestamp) returns (vm: MainViewModel)
    ensures fresh(vm) && fresh(vm.notifier) && vm.Valid()
    ensures Ids(Snapshot(vm.tasks)) == [2, 3, 4] && vm.nextId == 5
  {
    vm := SelectFirstSample(now);
    ghost var before := vm.tasks;
    ghost var ds0 := Snapshot(before);
    SnapshotTail(before);
    vm.DeleteTask(true);
    assert vm.tasks == before[1..] by {
      assert IndexOf(before, before[0]) == 0;
    }
    assert Snapshot(vm.tasks) == ds0[1..];
    IdsSnocAndTail(ds0, ds0[0]);
  }

  /**
   * A session on a fresh view model: select the first sample task, delete it, then add a task. The
   * counter does not reuse the deleted id, so the ids left are 2, 3, 4 and the new 5.
   */
  method DeleteThenAdd(now: Timestamp) returns (ids: seq<int>)
    ensures ids == [2, 3, 4, 5]
  {
    var vm := DeleteFirstSample(now);
    ghost var ds1 := Snapshot(vm.tasks);
    assert !IsNullOrWhiteSpace(Some("Write report")) by {
      assert !IsWhiteSpace("Write report"[0]);
    }
    vm.AddTask("Write report", "", now);
    ghost var added := TaskData(5, "Write report", "", Active, Medium, now);
    assert Snapshot(vm.tasks) == ds1 + [added];
    IdsSnocAndTail(ds1, added);
    ids := Ids(Snapshot(vm.tasks));
  }

  /** Of the four sample tasks only the fourth is completed. */
  lemma CompletedSamples(firstId: int, now: Timestamp)
    ensures Filter(SampleTasks(firstId, now), Some(Completed), None) == [SampleTasks(firstId, now)[3]]
  {
    var ds := SampleTasks(firstId, now);
    var mask := MatchMask(ds, Some(Completed), None);
    assert mask == [false, false, false, true];
    KeepPrefixStep(ds, mask, 0);
    KeepPrefixStep(ds, mask, 1);
    KeepPrefixStep(ds, mask, 2);
    KeepPrefixStep(ds, mask, 3);
    assert ds[..4] == ds && mask[..4] == mask;
  }

  /** On a fresh view model, showing completed tasks leaves only the fourth sample task. */
  method ShowCompletedSamples(now: Timestamp) returns (shown: seq<TaskData>)
    ensures |shown| == 1 && shown[0].id == 4 && shown[0].status == Completed
  {
    var vm := new MainViewModel(now);
    vm.ShowCompleted();
    vm.FilteredSnapshot();
    CompletedSamples(1, now);
    shown := Snapshot(vm.filteredTasks);
  }
}

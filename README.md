# TaskManager.WPF task list, modelled in Dafny

TaskManager.WPF is a small WPF to-do application. This project models its core:

- **`MainViewModel`** (module `MainViewModels`). It holds the full task list and the filtered list the grid shows. It also holds the selection, the search text, the status filter and the id counter `_nextId`. Its operations are:
  - adding a task (the sample data, and the user's "add" command);
  - renaming, deleting and toggling the selected task;
  - the command guard `CanEditOrDelete`;
  - `ApplyFilter`, which rebuilds the filtered list;
  - the `SearchText` / `FilterStatus` / `SelectedTask` setters;
  - the three "show" commands.
- **`TaskItem`** (module `Models`). The task record with its change-notifying setters, and the `TaskStatus` and `TaskPriority` enumerations.
- **`BaseViewModel`** (module `BaseViewModels`). `SetProperty` and `OnPropertyChanged`.
- **`RelayCommand`** (module `Commands`). The constructor's null check, `CanExecute` and `Execute`.

Supporting modules:

- `Text`: `string.IsNullOrWhiteSpace` and case-insensitive `Contains`.
- `Sequences`: the order-preserving selection a `Where` + `foreach` performs, and `Collection<T>.Remove`.
- `Filtering`: the two filter stages as a value-level specification.
- `Wrappers`: `Option` and `Result`.

**Objects and state.**
- `MainViewModel` and `TaskItem` are classes whose methods update their fields in place, as the source's do.
- Each object records the `PropertyChanged` announcements it raised, as a sequence of property names.
- A `MainViewModel` has two invariants:
  - `Valid()`: the counter has handed out exactly the ids 1 .. `nextId - 1`, and the ids along the task list strictly ascend below `nextId`.
  - `FilterCurrent()`: the filtered list equals what `ApplyFilter` would build from the current state.

**Parameters for what cannot be modelled.** The clock (`DateTime.Now`) and the two dialogs (`InputBox`, `MessageBox`) become parameters:
- the timestamp;
- the text the user typed;
- whether the user answered Yes.

## Model

| member | source | states |
|---|---|---|
| `MainViewModels.MainViewModel.constructor` | TaskManager/ViewModels/MainViewModel.cs:101-117 | Starts with the four sample tasks, ids 1-4, counter at 5, no selection, search or filter; the filtered list is the whole list and both invariants hold |
| `MainViewModels.MainViewModel.LoadSampleData` | TaskManager/ViewModels/MainViewModel.cs:122-128 | Appends exactly the four sample tasks (titles, descriptions, priorities, statuses) with consecutive ids from the counter; the counter moves on by 4; invariants kept |
| `MainViewModels.MainViewModel.AddTaskInternal` | TaskManager/ViewModels/MainViewModel.cs:133-147 | The new task is appended with the counter's value as id, an id never issued before; the counter advances by one; earlier tasks are unchanged; the ids stay unique and ascending; the filtered list is rebuilt |
| `MainViewModels.MainViewModel.AddTask` | TaskManager/ViewModels/MainViewModel.cs:152-169 | A blank title changes nothing; otherwise exactly one fresh Medium, Active task with the typed title and description is appended under the next id, and the earlier tasks keep their values |
| `MainViewModels.MainViewModel.EditTask` | TaskManager/ViewModels/MainViewModel.cs:174-188 | Without a selection, or with a blank title, nothing changes; otherwise only the selected task's title changes (announced when it differs); no other task and neither list changes |
| `MainViewModels.MainViewModel.DeleteTask` | TaskManager/ViewModels/MainViewModel.cs:193-209 | Without a selection or without a Yes nothing changes; otherwise the full list becomes `Remove(old list, selected)`, the selected task is in neither list, the count drops by one if it was present, and the filtered list is current |
| `MainViewModels.MainViewModel.RemoveTask` | TaskManager/ViewModels/MainViewModel.cs:206 | `Tasks.Remove`: the first occurrence leaves the list, the task is gone afterwards (ids are unique), the ids stay ascending |
| `MainViewModels.MainViewModel.ToggleStatus` | TaskManager/ViewModels/MainViewModel.cs:214-224 | With a selection, its status flips to the other value and "Status" is announced; other tasks and the list order are untouched; the filtered list is rebuilt |
| `MainViewModels.MainViewModel.CanEditOrDelete` | TaskManager/ViewModels/MainViewModel.cs:229-232 | Enabled exactly when a task is selected |
| `MainViewModels.MainViewModel.CanExecute` | TaskManager/ViewModels/MainViewModel.cs:107-113 | Edit, delete and toggle are guarded by `CanEditOrDelete`; add and the three show commands are always enabled |
| `MainViewModels.MainViewModel.ApplyFilter` | TaskManager/ViewModels/MainViewModel.cs:237-261 | Afterwards the filtered list is the in-order selection of the tasks that pass the status and search stages; it holds only tasks of the full list; nothing else changes |
| `MainViewModels.MainViewModel.FilteredSnapshot` | TaskManager/ViewModels/MainViewModel.cs:237-261 | While the filtered list is current, the values it shows are `Filter` of the full list's values, so the `Filter` lemmas below describe what the grid displays |
| `MainViewModels.MainViewModel.MatchingTasks` | TaskManager/ViewModels/MainViewModel.cs:241-260 | The loop over the full list returns exactly the tasks passing both stages, in list order |
| `MainViewModels.MainViewModel.SetSelectedTask` | TaskManager/ViewModels/MainViewModel.cs:51-55 | Stores the value; announces "SelectedTask" exactly when it differs |
| `MainViewModels.MainViewModel.SetSearchText` | TaskManager/ViewModels/MainViewModel.cs:60-70 | Stores the value; a different value is announced and re-filters; the same value changes neither the filtered list nor the announcements |
| `MainViewModels.MainViewModel.SetFilterStatus` | TaskManager/ViewModels/MainViewModel.cs:75-85 | Same as the search setter, for the status filter |
| `MainViewModels.MainViewModel.ShowAll` | TaskManager/ViewModels/MainViewModel.cs:111 | Through the `FilterStatus` setter, the status filter becomes absent; if it changed, "FilterStatus" is announced and the filtered list is current; otherwise neither the list nor the announcements change |
| `MainViewModels.MainViewModel.ShowActive` | TaskManager/ViewModels/MainViewModel.cs:112 | The status filter becomes Active, with the same announcement and re-filtering rule |
| `MainViewModels.MainViewModel.ShowCompleted` | TaskManager/ViewModels/MainViewModel.cs:113 | The status filter becomes Completed, with the same announcement and re-filtering rule |
| `MainViewModels.SnocKeepsIdsAscending` | TaskManager/ViewModels/MainViewModel.cs:137-145 | Appending a task that carries the counter's value keeps the ids unique and ascending below the advanced counter |
| `MainViewModels.RemoveKeepsIdsAscending` | TaskManager/ViewModels/MainViewModel.cs:206 | Removing a task keeps the others' ids ascending, and the removed task is no longer in the list |
| `MainViewModels.IssuedId32` | TaskManager/ViewModels/MainViewModel.cs:28 | The id the k-th added task gets from the 32-bit counter as declared: always in the `int` range, and congruent to k + 1 modulo 2^32 |
| `MainViewModels.IssuedId32Repeats` | TaskManager/ViewModels/MainViewModel.cs:137 | With the 32-bit counter the id after 2^31 - 1 is -2^31, and the (2^32 + 1)-th task gets id 1 again |
| `MainViewModels.SampleIds` | TaskManager/ViewModels/MainViewModel.cs:124-127 | The four sample tasks carry consecutive ids from the counter's value |
| `MainViewModels.CompletedSamples` | TaskManager/ViewModels/MainViewModel.cs:124-127 | Of the sample tasks, only the fourth passes a Completed status filter |
| `MainViewModels.SelectFirstSample` | TaskManager/ViewModels/MainViewModel.cs:101-117 | A new view model holds ids 1-4 with the counter at 5; selecting the first task keeps the invariant |
| `MainViewModels.DeleteFirstSample` | TaskManager/ViewModels/MainViewModel.cs:193-209 | Deleting the selected first sample task leaves ids 2, 3, 4 and the counter at 5 |
| `MainViewModels.DeleteThenAdd` | TaskManager/ViewModels/MainViewModel.cs:152-169 | Select the first task, delete it, add a task: the ids are 2, 3, 4, 5, so the deleted id is not reused |
| `MainViewModels.ShowCompletedSamples` | TaskManager/ViewModels/MainViewModel.cs:113 | On a new view model, showing completed tasks shows exactly one task: id 4, Completed |
| `MainViewModels.TitleEditCanUnmatch` | TaskManager/ViewModels/MainViewModel.cs:184-187 | A title edit can make a shown task stop matching the search text, so the unrefreshed filtered list can show a non-matching task |
| `Models.TaskItem.constructor` | TaskManager/ViewModels/MainViewModel.cs:135-143 | The object initializer: every property holds the given value, and no announcement is observable |
| `Models.TaskItem.SetId` | TaskManager/Models/TaskItem.cs:23-34 | Only `Id` changes; "Id" is announced exactly when the value differs |
| `Models.TaskItem.SetTitle` | TaskManager/Models/TaskItem.cs:39-50 | Only `Title` changes; "Title" is announced exactly when the value differs |
| `Models.TaskItem.SetDescription` | TaskManager/Models/TaskItem.cs:55-66 | Only `Description` changes; "Description" is announced exactly when the value differs |
| `Models.TaskItem.SetStatus` | TaskManager/Models/TaskItem.cs:71-82 | Only `Status` changes; "Status" is announced exactly when the value differs |
| `Models.TaskItem.SetPriority` | TaskManager/Models/TaskItem.cs:87-98 | Only `Priority` changes; "Priority" is announced exactly when the value differs |
| `Models.TaskItem.SetCreatedDate` | TaskManager/Models/TaskItem.cs:103-114 | Only `CreatedDate` changes; "CreatedDate" is announced exactly when the value differs |
| `Models.StatusValues` | TaskManager/Models/TaskItem.cs:130-134 | Active = 0 and Completed = 1 round-trip, and they are the only status values |
| `Models.PriorityValues` | TaskManager/Models/TaskItem.cs:139-144 | Low = 0, Medium = 1, High = 2 round-trip, and they are the only priority values |
| `Models.Toggled` | TaskManager/ViewModels/MainViewModel.cs:219-221 | The toggled status always differs from the old one |
| `Models.ToggledTwice` | TaskManager/ViewModels/MainViewModel.cs:219-221 | Toggling twice restores the status |
| `BaseViewModels.BaseViewModel.constructor` | TaskManager/ViewModels/BaseViewModel.cs:15 | A new view model has announced nothing |
| `BaseViewModels.BaseViewModel.OnPropertyChanged` | TaskManager/ViewModels/BaseViewModel.cs:22-25 | Announces the given name unconditionally, after the earlier announcements |
| `BaseViewModels.BaseViewModel.SetProperty` | TaskManager/ViewModels/BaseViewModel.cs:35-43 | The field ends up holding the value; the result is true exactly when the value differed; exactly then one announcement of the property's name is added |
| `BaseViewModels.SetPropertyTwice` | TaskManager/ViewModels/BaseViewModel.cs:35-43 | Setting the same value again reports no change and announces nothing more |
| `Commands.NewRelayCommand` | TaskManager/Commands/RelayCommand.cs:24-28 | A missing action fails with `ArgumentNullException("execute")` and nothing else fails; a built command keeps both delegates, the predicate may be absent |
| `Commands.RelayCommand.CanExecute` | TaskManager/Commands/RelayCommand.cs:42-45 | Enabled when there is no predicate, otherwise exactly when the predicate holds |
| `Commands.ExecuteIgnoresCanExecute` | TaskManager/Commands/RelayCommand.cs:47-50 | Executing runs the action on the state and parameter, whatever predicate the command has |
| `Filtering.FilterMember` | TaskManager/ViewModels/MainViewModel.cs:237-261 | A task is shown exactly when it is in the full list and passes both stages |
| `Filtering.FilterIsMatchingSubsequence` | TaskManager/ViewModels/MainViewModel.cs:241-260 | The shown tasks are, in list order, exactly the tasks at the matching positions |
| `Filtering.FilterSnoc` | TaskManager/ViewModels/MainViewModel.cs:145-146 | Adding a task at the end adds it at the end of the shown list exactly when it matches |
| `Filtering.FilterWithoutCriteria` | TaskManager/ViewModels/MainViewModel.cs:244-255 | With no status filter and a blank search every task is shown, in order |
| `Filtering.FilterIdempotent` | TaskManager/ViewModels/MainViewModel.cs:237-261 | Filtering the shown tasks again with the same criteria changes nothing |
| `Filtering.FilterStages` | TaskManager/ViewModels/MainViewModel.cs:244-255 | Running the status stage and then the search stage on its output equals the combined filter |
| `Filtering.FilterIgnoresSearchCase` | TaskManager/ViewModels/MainViewModel.cs:250-254 | Two search texts that differ only in letter case show the same tasks |
| `Filtering.SnapshotKeep` | TaskManager/ViewModels/MainViewModel.cs:257-260 | Copying the selected task references and then reading them equals reading all tasks and then selecting |
| `Text.ContainsIgnoreCaseIffOccurs` | TaskManager/ViewModels/MainViewModel.cs:253-254 | The case-insensitive `Contains` holds exactly when the pattern occurs at some position, comparing per character under the case fold |
| `Text.ContainsIgnoresPatternCase` | TaskManager/ViewModels/MainViewModel.cs:253-254 | The answer depends on the pattern only through its case fold |
| `Text.ContainsIgnoresTextCase` | TaskManager/ViewModels/MainViewModel.cs:253-254 | The answer depends on the searched text only through its case fold |
| `Text.BlankIgnoresCase` | TaskManager/ViewModels/MainViewModel.cs:250 | Two search texts with the same case fold are blank together or not at all |
| `Text.ToUpper` | TaskManager/ViewModels/MainViewModel.cs:253-254 | The case fold maps lower-case ASCII letters to upper case, fixes every other character, and keeps white space white space |
| `Sequences.IndexOf` | TaskManager/ViewModels/MainViewModel.cs:206 | The first position holding the element, or -1 exactly when it is absent |
| `Sequences.Remove` | TaskManager/ViewModels/MainViewModel.cs:206 | Without an occurrence nothing changes; otherwise exactly one element goes |
| `Sequences.RemoveKeepsOrder` | TaskManager/ViewModels/MainViewModel.cs:206 | Elements before the first occurrence stay in place; those after it move up by one |
| `Sequences.RemoveMultiset` | TaskManager/ViewModels/MainViewModel.cs:206 | Removal takes out exactly one copy: adding it back restores the contents |
| `Sequences.RemoveDistinct` | TaskManager/ViewModels/MainViewModel.cs:206 | In a list without duplicates, the removed element is gone afterwards |
| `Sequences.KeepMember` | TaskManager/ViewModels/MainViewModel.cs:246-259 | An element is selected exactly when it stands at some position whose test holds |
| `Sequences.KeepAtKeptIndices` | TaskManager/ViewModels/MainViewModel.cs:257-260 | The selection picks, in order, exactly the elements at the passing positions |
| `Sequences.KeptIndices` | TaskManager/ViewModels/MainViewModel.cs:246-254 | The passing positions, strictly increasing, each one passing, none missing |
| `Sequences.KeepSubset` | TaskManager/ViewModels/MainViewModel.cs:257-260 | Only elements of the source list are selected |
| `Sequences.KeepAll` | TaskManager/ViewModels/MainViewModel.cs:241 | When every position passes, the selection is the whole list in order |

## Left out

- `DateTime.Now` is a timestamp parameter, and `LoadSampleData` uses one value for all four tasks. The source reads the clock once per task, so its four creation dates may differ by a few ticks.
- The dialogs are parameters:
  - `InputBox` becomes the text the user typed; its prompts, captions and default text are not modelled.
  - `MessageBox` becomes whether the user answered Yes.
  - Cancelling an `InputBox` returns "", which the model treats as the typed text "".
- Delivery of `PropertyChanged` to subscribers is not modelled; each object keeps the list of names it announced instead.
- `Models.TaskItem.constructor`: the object initializer (TaskManager/ViewModels/MainViewModel.cs:135-143) runs the property setters. These announce "Id", "Title", "Description" and "CreatedDate", and "Priority" or "Status" when not the default. The model starts the task's list of announcements empty, because nobody can have subscribed yet.
- The `CollectionChanged` events of `ObservableCollection` are not modelled, and neither is `CanExecuteChanged` via `CommandManager.RequerySuggested` (TaskManager/Commands/RelayCommand.cs:33-37). Both are WPF framework plumbing.
- The `Tasks` and `FilteredTasks` property setters (TaskManager/ViewModels/MainViewModel.cs:33-46) are only called by the constructor. The model gives the lists their initial empty values directly, without the two announcements, which happen before anyone can subscribe.
- `ApplyFilter` builds the new selection in one pass and then assigns it, where the source clears the observable collection and adds the tasks one by one. The final contents are the same; the intermediate states are not modelled.
- `MainViewModels.MainViewModel.DeleteTask`: the two `if`s of the source are merged, because the confirmation is a parameter. As in the source, the selection is not cleared after a delete.
- `MainViewModels.MainViewModel.EditTask`: as in the source, the filtered list is not rebuilt after a rename (see `TitleEditCanUnmatch`).
- The command parameter of `Execute` and `CanExecute` is ignored by every command of the view model, so the view-model methods take none. `Commands.RelayCommand` keeps it as a generic `P`.
- Case-insensitive comparison folds only ASCII letters. .NET's ordinal-ignore-case also folds the other Unicode letters (for example the Cyrillic of the sample titles). Searches that differ only in non-ASCII case are not identified by the model.
- `MainViewModels.MainViewModel.AddTaskInternal`: the counter is an unbounded integer, so the model does not wrap at 2^31 - 1 as C#'s `int` does. The wrap is shown separately; see "## Findings".
- `MainWindow.xaml.cs` only sets the view model as the window's data context; it is not part of this model.

## Findings

| source | as written | input that shows it | evidently intended | confidence | as-written member | corrected member |
|---|---|---|---|---|---|---|
| TaskManager/ViewModels/MainViewModel.cs:28 | `_nextId` is a 32-bit `int` and `_nextId++` wraps silently | 2^31 tasks added: the last gets id -2^31; 2^32 + 1 tasks added: the last gets id 1, the first task's id | each task gets a unique positive id (TaskManager/Models/TaskItem.cs:20-23) | low (needs 2^32 additions), not executed | `MainViewModels.IssuedId32Repeats` | `MainViewModels.MainViewModel.AddTaskInternal` |

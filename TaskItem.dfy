/**
 * The task record: its two enumerations, a value view of its fields, and the mutable `TaskItem`
 * whose property setters store a value and raise a change notification only when the value differs.
 */
module Models {
  import opened Wrappers

  /** A `DateTime`, by its tick count (two `DateTime`s are equal exactly when their ticks are). */
  type Timestamp = nat

  datatype TaskStatus = Active | Completed

  datatype TaskPriority = Low | Medium | High

  /** The integer each status stands for. */
  function StatusValue(s: TaskStatus): int
  {
    match s
    case Active => 0
    case Completed => 1
  }

  /** The status an integer stands for, if any. */
  function StatusFromValue(n: int): Option<TaskStatus>
  {
    if n == 0 then Some(Active) else if n == 1 then Some(Completed) else None
  }

  /** Active = 0 and Completed = 1 are the only two statuses. */
  lemma StatusValues(s: TaskStatus, n: int)
    ensures StatusFromValue(StatusValue(s)) == Some(s)
    ensures StatusFromValue(n).Some? <==> 0 <= n <= 1
  {
  }

  /** The integer each priority stands for. */
  function PriorityValue(p: TaskPriority): int
  {
    match p
    case Low => 0
    case Medium => 1
    case High => 2
  }

  /** The priority an integer stands for, if any. */
  function PriorityFromValue(n: int): Option<TaskPriority>
  {
    if n == 0 then Some(Low) else if n == 1 then Some(Medium) else if n == 2 then Some(High) else None
  }

  /** Low = 0, Medium = 1 and High = 2 are the only three priorities. */
  lemma PriorityValues(p: TaskPriority, n: int)
    ensures PriorityFromValue(PriorityValue(p)) == Some(p)
    ensures PriorityFromValue(n).Some? <==> 0 <= n <= 2
  {
  }

  /** The other status: the only transition a task's status has. */
  function Toggled(s: TaskStatus): (r: TaskStatus)
    ensures r != s
  {
    if s == Active then Completed else Active
  }

  /** Toggling twice restores the status. */
  lemma ToggledTwice(s: TaskStatus)
    ensures Toggled(Toggled(s)) == s
  {
  }

  /** What the getters of a `TaskItem` return at one moment. */
  datatype TaskData = TaskData(
    id: int,
    title: string,
    description: string,
    status: TaskStatus,
    priority: TaskPriority,
    createdDate: Timestamp)

  /**
   * A task. `notifications` is the sequence of property names the object has announced through
   * `PropertyChanged` since it was constructed, oldest first.
   */
  class TaskItem {
    var id: int
    var title: string
    var description: string
    var status: TaskStatus
    var priority: TaskPriority
    var createdDate: Timestamp
    var notifications: seq<string>

    /**
     * The object initializer `new TaskItem { Id = .., Title = .., .. }`. The notifications its
     * setters raise happen before anybody can have subscribed, so none is observable.
     */
    constructor (id: int, title: string, description: string, priority: TaskPriority,
                 status: TaskStatus, createdDate: Timestamp)
      ensures Data() == TaskData(id, title, description, status, priority, createdDate)
      ensures notifications == []
    {
      this.id := id;
      this.title := title;
      this.description := description;
      this.priority := priority;
      this.status := status;
      this.createdDate := createdDate;
      this.notifications := [];
    }

    /** All the getters at once. */
    function Data(): TaskData
      reads this
    {
      TaskData(id, title, description, status, priority, createdDate)
    }

    method SetId(value: int)
      modifies this
      ensures Data() == old(Data()).(id := value)
      ensures notifications == if old(id) == value then old(notifications) else old(notifications) + ["Id"]
    {
      if id != value {
        id := value;
        notifications := notifications + ["Id"];
      }
    }

    method SetTitle(value: string)
      modifies this
      ensures Data() == old(Data()).(title := value)
      ensures notifications == if old(title) == value then old(notifications) else old(notifications) + ["Title"]
    {
      if title != value {
        title := value;
        notifications := notifications + ["Title"];
      }
    }

    method SetDescription(value: string)
      modifies this
      ensures Data() == old(Data()).(description := value)
      ensures notifications ==
        if old(description) == value then old(notifications) else old(notifications) + ["Description"]
    {
      if description != value {
        description := value;
        notifications := notifications + ["Description"];
      }
    }

    method SetStatus(value: TaskStatus)
      modifies this
      ensures Data() == old(Data()).(status := value)
      ensures notifications == if old(status) == value then old(notifications) else old(notifications) + ["Status"]
    {
      if status != value {
        status := value;
        notifications := notifications + ["Status"];
      }
    }

    method SetPriority(value: TaskPriority)
      modifies this
      ensures Data() == old(Data()).(priority := value)
      ensures notifications ==
        if old(priority) == value then old(notifications) else old(notifications) + ["Priority"]
    {
      if priority != value {
        priority := value;
        notifications := notifications + ["Priority"];
      }
    }

    method SetCreatedDate(value: Timestamp)
      modifies this
      ensures Data() == old(Data()).(createdDate := value)
      ensures notifications ==
        if old(createdDate) == value then old(notifications) else old(notifications) + ["CreatedDate"]
    {
      if createdDate != value {
        createdDate := value;
        notifications := notifications + ["CreatedDate"];
      }
    }
  }

  /**
   * The value of every task in `ts`, position by position; `reads` covers the tasks, so the
   * sequence changes exactly when one of them is mutated.
   */
  function Snapshot(ts: seq<TaskItem>): (ds: seq<TaskData>)
    reads ts
    ensures |ds| == |ts|
  {
    seq(|ts|, i reads ts requires 0 <= i < |ts| => ts[i].Data())
  }
}

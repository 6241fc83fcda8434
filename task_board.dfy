/** The kanban board: three columns by status, the card's "next status"
    button and its move menu. */
module TaskBoard {
  import opened Common
  import opened Seqs

  datatype TaskStatus = Todo | InProgress | Done

  datatype Task = Task(id: string, title: string, status: TaskStatus)

  /** `COLUMNS`, in display order. */
  const Columns: seq<TaskStatus> := [Todo, InProgress, Done]

  /** A column's heading. */
  function Title(s: TaskStatus): string {
    match s
    case Todo => "To Do"
    case InProgress => "In Progress"
    case Done => "Done"
  }

  /** Each column has its own heading. */
  lemma TitleInjective(s: TaskStatus, t: TaskStatus)
    ensures Title(s) == Title(t) <==> s == t
  {
  }

  /** The columns' positions (0, 1, 2) on the board. */
  function Position(s: TaskStatus): (p: nat)
    ensures p < 3 && Columns[p] == s
  {
    match s
    case Todo => 0
    case InProgress => 1
    case Done => 2
  }

  function HasStatus(s: TaskStatus): Task -> bool {
    (t: Task) => t.status == s
  }

  /** `tasks.filter((t) => t.status === column.id)`. */
  function ColumnTasks(tasks: seq<Task>, s: TaskStatus): seq<Task> {
    Filter(tasks, HasStatus(s))
  }

  /** A column holds, in input order, exactly those tasks whose status is its own. */
  lemma ColumnSpec(tasks: seq<Task>, s: TaskStatus)
    ensures Subseq(ColumnTasks(tasks, s), tasks)
    ensures forall t :: t in ColumnTasks(tasks, s) <==> t in tasks && t.status == s
  {
    var c := ColumnTasks(tasks, s);
    forall t | t in c
      ensures t.status == s
    {
      var i :| 0 <= i < |c| && c[i] == t;
      assert HasStatus(s)(c[i]);
    }
    forall t | t in tasks && t.status == s
      ensures t in c
    {
      var i :| 0 <= i < |tasks| && tasks[i] == t;
      assert HasStatus(s)(tasks[i]);
    }
  }

  /** Every task is in the column of its status and in no other. */
  lemma ExactlyOneColumn(tasks: seq<Task>, t: Task, s: TaskStatus)
    requires t in tasks
    ensures t in ColumnTasks(tasks, s) <==> s == t.status
  {
    ColumnSpec(tasks, s);
  }

  /** The three columns together hold as many cards as there are tasks. */
  lemma {:induction false} ColumnsCoverAll(tasks: seq<Task>)
    ensures |ColumnTasks(tasks, Todo)| + |ColumnTasks(tasks, InProgress)| + |ColumnTasks(tasks, Done)| == |tasks|
  {
    if tasks != [] {
      ColumnsCoverAll(tasks[1..]);
    }
  }

  /** `nextStatus`: To Do moves on to In Progress, In Progress to Done, and a
      done task has nowhere further to go. */
  function NextStatus(s: TaskStatus): (r: Option<TaskStatus>)
    ensures r.None? <==> s == Done
    ensures r.Some? ==> Position(r.value) == Position(s) + 1
  {
    match s
    case Todo => Some(InProgress)
    case InProgress => Some(Done)
    case Done => None
  }

  /** Following the arrow button from To Do reaches Done in two steps. */
  lemma NextStatusReachesDone()
    ensures NextStatus(Todo) == Some(InProgress) && NextStatus(InProgress) == Some(Done)
    ensures NextStatus(Done).None?
  {
  }

  /** The move menu: every column but the card's own, in column order. */
  function MoveOptions(current: TaskStatus): (r: seq<TaskStatus>)
    ensures |r| == 2
    ensures forall s :: s in r <==> s != current
    ensures Position(r[0]) < Position(r[1])
  {
    (if current != Todo then [Todo] else [])
    + (if current != InProgress then [InProgress] else [])
    + (if current != Done then [Done] else [])
  }

  /** The count on a column's badge. */
  function Badge(tasks: seq<Task>, s: TaskStatus): nat {
    |ColumnTasks(tasks, s)|
  }

  /** "Tidak ada tugas" shows in a column exactly when no task has its status. */
  predicate ShowsPlaceholder(tasks: seq<Task>, s: TaskStatus) {
    Badge(tasks, s) == 0
  }

  lemma PlaceholderIff(tasks: seq<Task>, s: TaskStatus)
    ensures ShowsPlaceholder(tasks, s) <==> forall i :: 0 <= i < |tasks| ==> tasks[i].status != s
  {
    ColumnSpec(tasks, s);
    var c := ColumnTasks(tasks, s);
    if c != [] {
      assert c[0] in c;
    }
    if exists i :: 0 <= i < |tasks| && tasks[i].status == s {
      var i :| 0 <= i < |tasks| && tasks[i].status == s;
      assert tasks[i] in c;
    }
  }
}

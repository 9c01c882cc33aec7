/** The order of tasks on the board: columns sorted from a flat list, and flattened back with fresh positions. */
module KanbanOrder {
  import opened StableSort

  datatype Status = Todo | InProgress | Done

  /** `content` stands for every field that ordering neither reads nor writes. */
  datatype Task = Task(id: string, status: Status, sortOrder: int, content: string)

  datatype Columns<T> = Columns(todo: seq<T>, inProgress: seq<T>, done: seq<T>) {
    function Of(s: Status): seq<T> {
      match s case Todo => todo case InProgress => inProgress case Done => done
    }

    function With(s: Status, column: seq<T>): Columns<T> {
      match s
      case Todo => this.(todo := column)
      case InProgress => this.(inProgress := column)
      case Done => this.(done := column)
    }
  }

  const STATUSES: seq<Status> := [Todo, InProgress, Done]

  function OrderOf(t: Task): int { t.sortOrder }

  /** The tasks of one status, in their order. */
  function ByStatus(tasks: seq<Task>, s: Status): (r: seq<Task>)
    ensures forall t :: t in r ==> t.status == s
  {
    if tasks == [] then []
    else if tasks[|tasks| - 1].status == s then ByStatus(tasks[..|tasks| - 1], s) + [tasks[|tasks| - 1]]
    else ByStatus(tasks[..|tasks| - 1], s)
  }

  function ColumnsOf(tasks: seq<Task>): Columns<Task> {
    Columns(Sort(ByStatus(tasks, Todo), OrderOf), Sort(ByStatus(tasks, InProgress), OrderOf),
      Sort(ByStatus(tasks, Done), OrderOf))
  }

  /** `taskBoardColumns`: tasks are pushed into their columns, then every column is sorted. */
  method TaskBoardColumns(tasks: seq<Task>) returns (columns: Columns<Task>)
    ensures columns == ColumnsOf(tasks)
  {
    columns := Columns([], [], []);
    var i := 0;
    while i < |tasks|
      invariant i <= |tasks| && forall s :: columns.Of(s) == ByStatus(tasks[..i], s)
    {
      assert tasks[..i + 1][..i] == tasks[..i];
      columns := columns.With(tasks[i].status, columns.Of(tasks[i].status) + [tasks[i]]);
      i := i + 1;
    }
    assert tasks[..i] == tasks;
    ghost var pushed := columns;
    i := 0;
    while i < |STATUSES|
      invariant i <= |STATUSES|
      invariant forall j :: 0 <= j < |STATUSES| ==>
        columns.Of(STATUSES[j]) == if j < i then Sort(pushed.Of(STATUSES[j]), OrderOf) else pushed.Of(STATUSES[j])
    {
      columns := columns.With(STATUSES[i], Sort(columns.Of(STATUSES[i]), OrderOf));
      i := i + 1;
    }
    assert columns.Of(STATUSES[0]) == Sort(pushed.Of(STATUSES[0]), OrderOf);
    assert columns.Of(STATUSES[1]) == Sort(pushed.Of(STATUSES[1]), OrderOf);
    assert columns.Of(STATUSES[2]) == Sort(pushed.Of(STATUSES[2]), OrderOf);
    assert pushed.Of(Todo) == ByStatus(tasks, Todo);
  }

  /** A column with its status and fresh positions. */
  function Renumbered(column: seq<Task>, s: Status): (r: seq<Task>)
    ensures |r| == |column|
  {
    seq(|column|, i requires 0 <= i < |column| => column[i].(status := s, sortOrder := i))
  }

  /** `tasksFromTaskBoardColumns` */
  function TasksFromColumns(columns: Columns<Task>): seq<Task> {
    Renumbered(columns.todo, Todo) + Renumbered(columns.inProgress, InProgress) + Renumbered(columns.done, Done)
  }

  function Ids(column: seq<Task>): (r: seq<string>)
    ensures |r| == |column|
  {
    seq(|column|, i requires 0 <= i < |column| => column[i].id)
  }

  /** `taskBoardColumnIds`: filled in status by status. */
  method TaskBoardColumnIds(columns: Columns<Task>) returns (result: Columns<string>)
    ensures forall s :: result.Of(s) == Ids(columns.Of(s))
  {
    result := Columns([], [], []);
    var i := 0;
    while i < |STATUSES|
      invariant i <= |STATUSES| && forall j :: 0 <= j < i ==> result.Of(STATUSES[j]) == Ids(columns.Of(STATUSES[j]))
    {
      result := result.With(STATUSES[i], Ids(columns.Of(STATUSES[i])));
      i := i + 1;
    }
    forall s: Status ensures result.Of(s) == Ids(columns.Of(s)) {
      assert s == STATUSES[if s.Todo? then 0 else if s.InProgress? then 1 else 2];
    }
  }

  /** `join(',')` */
  function Join(parts: seq<string>): string {
    if parts == [] then "" else if |parts| == 1 then parts[0] else parts[0] + "," + Join(parts[1..])
  }

  /** `sameTaskBoardOrder` */
  predicate SameOrder(previous: seq<Task>, next: seq<Task>) {
    forall s: Status :: Join(Ids(ColumnsOf(previous).Of(s))) == Join(Ids(ColumnsOf(next).Of(s)))
  }

  // ---------------------------------------------------------------- columns to tasks and back

  lemma {:induction false} ByStatusConcat(a: seq<Task>, b: seq<Task>, s: Status)
    ensures ByStatus(a + b, s) == ByStatus(a, s) + ByStatus(b, s)
  {
    if b == [] {
      assert a + b == a;
    } else {
      var n := |b| - 1;
      assert (a + b)[..|a + b| - 1] == a + b[..n];
      ByStatusConcat(a, b[..n], s);
    }
  }

  lemma {:induction false} ByStatusOne(a: seq<Task>, own: Status, s: Status)
    requires forall t :: t in a ==> t.status == own
    ensures ByStatus(a, s) == if s == own then a else []
  {
    if a != [] {
      assert a[|a| - 1] in a;
      ByStatusOne(a[..|a| - 1], own, s);
      assert a == a[..|a| - 1] + [a[|a| - 1]];
    }
  }

  /** Columns flattened and gathered again are the same columns with fresh positions, however the tasks were moved. */
  lemma ColumnsRoundTrip(c: Columns<Task>, s: Status)
    ensures ColumnsOf(TasksFromColumns(c)).Of(s) == Renumbered(c.Of(s), s)
  {
    var a, b, d := Renumbered(c.todo, Todo), Renumbered(c.inProgress, InProgress), Renumbered(c.done, Done);
    ByStatusConcat(a + b, d, s);
    ByStatusConcat(a, b, s);
    ByStatusOne(a, Todo, s);
    ByStatusOne(b, InProgress, s);
    ByStatusOne(d, Done, s);
    assert ByStatus(TasksFromColumns(c), s) == Renumbered(c.Of(s), s);
    SortOfOrdered(Renumbered(c.Of(s), s), OrderOf);
  }

  /** The normal form of a task list: what the board stores after every move. */
  function Normal(tasks: seq<Task>): seq<Task> { TasksFromColumns(ColumnsOf(tasks)) }

  /** Every column of the normal form is the sorted column with positions 0, 1, ..., k - 1. */
  lemma NormalColumns(tasks: seq<Task>, s: Status)
    ensures var column := ColumnsOf(Normal(tasks)).Of(s);
      && Ids(column) == Ids(ColumnsOf(tasks).Of(s))
      && (forall i :: 0 <= i < |column| ==> column[i].sortOrder == i && column[i].status == s)
  {
    ColumnsRoundTrip(ColumnsOf(tasks), s);
  }

  /** Normalising does not change the order the board shows. */
  lemma NormalKeepsOrder(tasks: seq<Task>)
    ensures SameOrder(tasks, Normal(tasks))
  {
    forall s: Status ensures Join(Ids(ColumnsOf(tasks).Of(s))) == Join(Ids(ColumnsOf(Normal(tasks)).Of(s))) {
      NormalColumns(tasks, s);
    }
  }

  lemma RenumberedTwice(column: seq<Task>, s: Status)
    ensures Renumbered(Renumbered(column, s), s) == Renumbered(column, s)
  {
  }

  /** Nor does normalising twice. */
  lemma NormalIdempotent(tasks: seq<Task>)
    ensures Normal(Normal(tasks)) == Normal(tasks)
  {
    var c := ColumnsOf(tasks);
    ColumnsRoundTrip(c, Todo);
    ColumnsRoundTrip(c, InProgress);
    ColumnsRoundTrip(c, Done);
    RenumberedTwice(c.todo, Todo);
    RenumberedTwice(c.inProgress, InProgress);
    RenumberedTwice(c.done, Done);
  }

  // ---------------------------------------------------------------- in which order

  /** The tasks with one position, in their order. */
  function AtPosition(tasks: seq<Task>, k: int): seq<Task> {
    if tasks == [] then []
    else if tasks[0].sortOrder == k then [tasks[0]] + AtPosition(tasks[1..], k) else AtPosition(tasks[1..], k)
  }

  lemma {:induction false} PositionIsKey(tasks: seq<Task>, k: int)
    ensures AtPosition(tasks, k) == WithKey(tasks, OrderOf, k)
  {
    if tasks != [] { PositionIsKey(tasks[1..], k); }
  }

  /** A column lists the tasks of its status by ascending position, tasks at one position in the order given. */
  lemma ColumnAscends(tasks: seq<Task>, s: Status)
    ensures var column := ColumnsOf(tasks).Of(s);
      && (forall i, j :: 0 <= i < j < |column| ==> column[i].sortOrder <= column[j].sortOrder)
      && multiset(column) == multiset(ByStatus(tasks, s))
      && forall k :: AtPosition(column, k) == AtPosition(ByStatus(tasks, s), k)
  {
    var column := ColumnsOf(tasks).Of(s);
    SortIsStable(ByStatus(tasks, s), OrderOf);
    forall i, j | 0 <= i < j < |column| ensures column[i].sortOrder <= column[j].sortOrder {
      assert OrderOf(column[i]) <= OrderOf(column[j]);
    }
    forall k ensures AtPosition(column, k) == AtPosition(ByStatus(tasks, s), k) {
      PositionIsKey(column, k);
      PositionIsKey(ByStatus(tasks, s), k);
    }
  }

  /** From left to right on the board. */
  function Place(s: Status): int { match s case Todo => 0 case InProgress => 1 case Done => 2 }

  predicate Earlier(a: Task, b: Task) {
    Place(a.status) < Place(b.status) || (a.status == b.status && a.sortOrder < b.sortOrder)
  }

  /** The flat list goes through the columns from left to right, each from its first position on. */
  lemma FlatInOrder(c: Columns<Task>)
    ensures var flat := TasksFromColumns(c); forall i, j :: 0 <= i < j < |flat| ==> Earlier(flat[i], flat[j])
  {
  }

  // ---------------------------------------------------------------- nothing is lost

  /** A task without its position. */
  function Unplaced(t: Task): Task { t.(sortOrder := 0) }

  function AllUnplaced(tasks: seq<Task>): (r: seq<Task>)
    ensures |r| == |tasks|
  {
    seq(|tasks|, i requires 0 <= i < |tasks| => Unplaced(tasks[i]))
  }

  lemma UnplacedConcat(a: seq<Task>, b: seq<Task>)
    ensures AllUnplaced(a + b) == AllUnplaced(a) + AllUnplaced(b)
  {
  }

  /** The three columns split the tasks. */
  lemma {:induction false} ColumnsSplit(tasks: seq<Task>)
    ensures multiset(ByStatus(tasks, Todo)) + multiset(ByStatus(tasks, InProgress)) +
      multiset(ByStatus(tasks, Done)) == multiset(tasks)
  {
    if tasks != [] {
      ColumnsSplit(tasks[..|tasks| - 1]);
      assert tasks == tasks[..|tasks| - 1] + [tasks[|tasks| - 1]];
    }
  }

  function Dropped(b: seq<Task>, i: nat): seq<Task>
    requires i < |b|
  {
    b[..i] + b[i + 1..]
  }

  lemma DropMultiset(b: seq<Task>, i: nat)
    requires i < |b|
    ensures multiset(b) == multiset{b[i]} + multiset(Dropped(b, i))
  {
    assert b == b[..i] + ([b[i]] + b[i + 1..]);
  }

  lemma DropUnplaced(b: seq<Task>, i: nat)
    requires i < |b|
    ensures multiset(AllUnplaced(b)) == multiset{Unplaced(b[i])} + multiset(AllUnplaced(Dropped(b, i)))
  {
    DropMultiset(AllUnplaced(b), i);
    assert Dropped(AllUnplaced(b), i) == AllUnplaced(Dropped(b, i));
  }

  /** Equal multisets stay equal when positions are dropped. */
  lemma {:induction false} UnplacedMultiset(a: seq<Task>, b: seq<Task>)
    requires multiset(a) == multiset(b)
    ensures multiset(AllUnplaced(a)) == multiset(AllUnplaced(b))
  {
    if a == [] {
      assert |multiset(b)| == 0;
    } else {
      assert a[0] in multiset(b);
      var i :| 0 <= i < |b| && b[i] == a[0];
      DropMultiset(a, 0);
      DropMultiset(b, i);
      assert multiset(Dropped(a, 0)) == multiset(a) - multiset{a[0]}
        && multiset(Dropped(b, i)) == multiset(b) - multiset{a[0]};
      UnplacedMultiset(Dropped(a, 0), Dropped(b, i));
      DropUnplaced(a, 0);
      DropUnplaced(b, i);
    }
  }

  lemma RenumberedUnplaced(column: seq<Task>, s: Status)
    requires forall t :: t in column ==> t.status == s
    ensures AllUnplaced(Renumbered(column, s)) == AllUnplaced(column)
  {
  }

  lemma SortedColumn(tasks: seq<Task>, s: Status)
    ensures multiset(ColumnsOf(tasks).Of(s)) == multiset(ByStatus(tasks, s))
    ensures forall t :: t in ColumnsOf(tasks).Of(s) ==> t.status == s
  {
    SortIsStable(ByStatus(tasks, s), OrderOf);
    forall t | t in ColumnsOf(tasks).Of(s) ensures t.status == s {
      assert t in multiset(ColumnsOf(tasks).Of(s));
      assert t in ByStatus(tasks, s);
    }
  }

  /** The normal form holds the same tasks, their positions apart. */
  lemma NormalPermutes(tasks: seq<Task>)
    ensures multiset(AllUnplaced(Normal(tasks))) == multiset(AllUnplaced(tasks))
  {
    var c := ColumnsOf(tasks);
    SortedColumn(tasks, Todo);
    SortedColumn(tasks, InProgress);
    SortedColumn(tasks, Done);
    ColumnsSplit(tasks);
    var all := c.todo + c.inProgress + c.done;
    assert multiset(all) == multiset(tasks);
    UnplacedMultiset(all, tasks);
    RenumberedUnplaced(c.todo, Todo);
    RenumberedUnplaced(c.inProgress, InProgress);
    RenumberedUnplaced(c.done, Done);
    UnplacedConcat(Renumbered(c.todo, Todo) + Renumbered(c.inProgress, InProgress), Renumbered(c.done, Done));
    UnplacedConcat(Renumbered(c.todo, Todo), Renumbered(c.inProgress, InProgress));
    UnplacedConcat(c.todo + c.inProgress, c.done);
    UnplacedConcat(c.todo, c.inProgress);
  }

  // ---------------------------------------------------------------- the comparison by joined ids

  /** An id that a comma cannot be confused with. */
  predicate Clean(id: string) { id != "" && ',' !in id }

  lemma {:induction false} JoinHead(parts: seq<string>)
    requires parts != [] && Clean(parts[0])
    ensures |parts[0]| <= |Join(parts)| && Join(parts)[..|parts[0]|] == parts[0]
    ensures |Join(parts)| > |parts[0]| <==> |parts| > 1
    ensures |parts| > 1 ==> Join(parts)[|parts[0]|] == ',' && Join(parts)[|parts[0]| + 1..] == Join(parts[1..])
  {
  }

  /** Lists of clean ids are told apart by their joined texts. */
  lemma {:induction false} JoinInjective(a: seq<string>, b: seq<string>)
    requires (forall i :: 0 <= i < |a| ==> Clean(a[i])) && (forall i :: 0 <= i < |b| ==> Clean(b[i]))
      && Join(a) == Join(b)
    ensures a == b
  {
    if a == [] {
      if b != [] { JoinHead(b); assert false; }
    } else if b == [] {
      JoinHead(a);
      assert false;
    } else {
      JoinHead(a);
      JoinHead(b);
      HeadsEqual(a[0], b[0], Join(a));
      assert a == [a[0]] + a[1..] && b == [b[0]] + b[1..];
      if |a| > 1 { JoinInjective(a[1..], b[1..]); }
    }
  }

  /** Two clean texts at the head of one text, each followed by a comma or the end, are the same. */
  lemma HeadsEqual(x: string, y: string, t: string)
    requires ',' !in x && ',' !in y && |x| <= |t| && |y| <= |t| && t[..|x|] == x && t[..|y|] == y
    requires (|x| < |t| ==> t[|x|] == ',') && (|y| < |t| ==> t[|y|] == ',')
    ensures x == y
  {
    assert |x| == |y|;
  }

  /** With clean ids, `sameTaskBoardOrder` says exactly that all three columns list the same ids in the same order. */
  lemma SameOrderExactly(previous: seq<Task>, next: seq<Task>)
    requires forall t :: t in previous || t in next ==> Clean(t.id)
    ensures SameOrder(previous, next)
      <==> forall s: Status :: Ids(ColumnsOf(previous).Of(s)) == Ids(ColumnsOf(next).Of(s))
  {
    if SameOrder(previous, next) {
      forall s: Status ensures Ids(ColumnsOf(previous).Of(s)) == Ids(ColumnsOf(next).Of(s)) {
        CleanColumn(previous, s);
        CleanColumn(next, s);
        JoinInjective(Ids(ColumnsOf(previous).Of(s)), Ids(ColumnsOf(next).Of(s)));
      }
    }
  }

  lemma CleanColumn(tasks: seq<Task>, s: Status)
    requires forall t :: t in tasks ==> Clean(t.id)
    ensures forall i :: 0 <= i < |Ids(ColumnsOf(tasks).Of(s))| ==> Clean(Ids(ColumnsOf(tasks).Of(s))[i])
  {
    SortedColumn(tasks, s);
    var column := ColumnsOf(tasks).Of(s);
    forall i | 0 <= i < |column| ensures Clean(column[i].id) {
      assert column[i] in multiset(column);
      ByStatusFrom(tasks, s);
    }
  }

  lemma {:induction false} ByStatusFrom(tasks: seq<Task>, s: Status)
    ensures forall t :: t in ByStatus(tasks, s) ==> t in tasks
  {
    if tasks != [] { ByStatusFrom(tasks[..|tasks| - 1], s); }
  }

  /** The board with these ids in its first column. */
  function Board(ids: seq<string>): seq<Task> { seq(|ids|, i requires 0 <= i < |ids| => Task(ids[i], Todo, i, "")) }

  lemma {:induction false} BoardColumn(ids: seq<string>, s: Status)
    ensures ByStatus(Board(ids), s) == if s == Todo then Board(ids) else []
  {
    if ids != [] {
      var init := ids[..|ids| - 1];
      BoardColumn(init, s);
      assert Board(ids)[..|ids| - 1] == Board(init);
      assert Board(ids) == Board(init) + [Task(ids[|ids| - 1], Todo, |ids| - 1, "")];
    }
  }

  lemma BoardIds(ids: seq<string>)
    ensures Ids(ColumnsOf(Board(ids)).Of(Todo)) == ids
    ensures ColumnsOf(Board(ids)).Of(InProgress) == [] && ColumnsOf(Board(ids)).Of(Done) == []
  {
    BoardColumn(ids, Todo);
    BoardColumn(ids, InProgress);
    BoardColumn(ids, Done);
    SortOfOrdered(Board(ids), OrderOf);
    assert Ids(Board(ids)) == ids;
  }

  /** Every unclean id is confused: a board that lists it compares equal to a board with other ids. */
  lemma UncleanConfused(x: string) returns (other: seq<string>)
    requires !Clean(x)
    ensures other != [x] && SameOrder(Board([x]), Board(other))
    ensures Ids(ColumnsOf(Board([x])).Of(Todo)) == [x] && Ids(ColumnsOf(Board(other)).Of(Todo)) == other
  {
    BoardIds([x]);
    if x == "" {
      other := [];
    } else {
      var i :| 0 <= i < |x| && x[i] == ',';
      other := [x[..i], x[i + 1..]];
      assert Join(other) == x[..i] + "," + x[i + 1..] == x;
    }
    BoardIds(other);
    assert Join([x]) == x;
  }
}

/** The overview of a task board at one moment: counts, readiness, per-assignee tallies and blockers. */
module TaskBoardOverview {
  import opened Text
  import opened StableSort

  datatype Status = Todo | InProgress | Done

  datatype User = User(id: string, name: string, profile: string)

  datatype Assignment = Assignment(userId: string, user: User)

  datatype Task = Task(
    id: string, title: string, status: Status, dueDate: Option<int>, assignees: seq<Assignment>, checklist: seq<bool>)

  const DAY_MS: int := 86_400_000

  predicate Overdue(t: Task, now: int) { !t.status.Done? && t.dueDate.Some? && t.dueDate.value < now }

  predicate DueSoon(t: Task, now: int) { !t.status.Done? && t.dueDate.Some? && now <= t.dueDate.value <= now + DAY_MS }

  predicate Unassigned(t: Task) { t.assignees == [] }

  /** No task is both overdue and due soon, and a finished one is neither. */
  lemma OverdueNotDueSoon(t: Task, now: int)
    ensures !(Overdue(t, now) && DueSoon(t, now)) && (t.status.Done? ==> !Overdue(t, now) && !DueSoon(t, now))
  {
  }

  /** An unfinished task with a due date is overdue, due within a day, or due later: one of the three. */
  lemma DueWindows(t: Task, now: int)
    requires !t.status.Done? && t.dueDate.Some?
    ensures Overdue(t, now) <==> t.dueDate.value - now < 0
    ensures DueSoon(t, now) <==> 0 <= t.dueDate.value - now <= 86_400_000
    ensures !Overdue(t, now) && !DueSoon(t, now) <==> t.dueDate.value - now > 86_400_000
  {
  }

  // ---------------------------------------------------------------- readiness

  function CountDone(tasks: seq<Task>): nat {
    if tasks == [] then 0 else CountDone(tasks[1..]) + (if tasks[0].status.Done? then 1 else 0)
  }

  function CountOverdue(tasks: seq<Task>, now: int): nat {
    if tasks == [] then 0 else CountOverdue(tasks[1..], now) + (if Overdue(tasks[0], now) then 1 else 0)
  }

  function CountUnassigned(tasks: seq<Task>): nat {
    if tasks == [] then 0 else CountUnassigned(tasks[1..]) + (if Unassigned(tasks[0]) then 1 else 0)
  }

  function ChecklistTotal(tasks: seq<Task>): nat {
    if tasks == [] then 0 else ChecklistTotal(tasks[1..]) + |tasks[0].checklist|
  }

  function CountTrue(items: seq<bool>): (n: nat)
    ensures n <= |items|
  {
    if items == [] then 0 else CountTrue(items[1..]) + (if items[0] then 1 else 0)
  }

  function ChecklistCompleted(tasks: seq<Task>): nat {
    if tasks == [] then 0 else ChecklistCompleted(tasks[1..]) + CountTrue(tasks[0].checklist)
  }

  /** `Math.round` */
  function Round(x: real): int { (x + 0.5).Floor }

  function ChecklistPercent(tasks: seq<Task>): int {
    if ChecklistTotal(tasks) == 0 then 100
    else PercentOf(ChecklistCompleted(tasks), ChecklistTotal(tasks))
  }

  function PercentOf(k: int, n: int): int
    requires n > 0
  {
    Round((k as real / n as real) * 100.0)
  }

  function RawScore(tasks: seq<Task>, now: int): real {
    if tasks == [] then 0.0
    else
      Points(Share(CountDone(tasks), |tasks|), ChecklistPercent(tasks) as real / 100.0,
        Share(|tasks| - CountUnassigned(tasks), |tasks|), CountOverdue(tasks, now) as real)
  }

  function Share(k: int, n: int): real
    requires n > 0
  {
    k as real / n as real
  }

  function Points(done: real, percent: real, taken: real, overdue: real): real {
    done * 55.0 + percent * 25.0 + taken * 20.0 - overdue * 8.0
  }

  function Clamp(n: int): (r: int)
    ensures 0 <= r <= 100 && (n <= 0 ==> r == 0) && (n >= 100 ==> r == 100) && (0 <= n <= 100 ==> r == n)
  {
    if n < 0 then 0 else if n > 100 then 100 else n
  }

  function Score(tasks: seq<Task>, now: int): int { Clamp(Round(RawScore(tasks, now))) }

  datatype Label = AtRisk | NeedsAttention | OnTrack | Complete

  function LabelFor(score: int, overdue: nat): Label {
    if score >= 95 && overdue == 0 then Complete
    else if overdue > 0 || score < 45 then AtRisk
    else if score >= 75 then OnTrack else NeedsAttention
  }

  /** How good a label is. */
  function Grade(l: Label): int {
    match l case AtRisk => 0 case NeedsAttention => 1 case OnTrack => 2 case Complete => 3
  }

  function MarkDone(tasks: seq<Task>, i: nat): seq<Task>
    requires i < |tasks|
  {
    tasks[i := tasks[i].(status := Done)]
  }

  lemma {:induction false} MarkDoneCounts(tasks: seq<Task>, i: nat, now: int)
    requires i < |tasks|
    ensures var t := MarkDone(tasks, i);
      && CountDone(t) == CountDone(tasks) + (if tasks[i].status.Done? then 0 else 1)
      && CountOverdue(t, now) == CountOverdue(tasks, now) - (if Overdue(tasks[i], now) then 1 else 0)
      && CountUnassigned(t) == CountUnassigned(tasks)
      && ChecklistTotal(t) == ChecklistTotal(tasks) && ChecklistCompleted(t) == ChecklistCompleted(tasks)
  {
    var t := MarkDone(tasks, i);
    if i == 0 {
      assert t[1..] == tasks[1..];
    } else {
      MarkDoneCounts(tasks[1..], i - 1, now);
      assert t[1..] == MarkDone(tasks[1..], i - 1);
    }
  }

  /** To the nearest whole number, halves upward. */
  lemma RoundNearest(x: real)
    ensures Round(x) as real - 0.5 <= x < Round(x) as real + 0.5
  {
  }

  /** Percents are rounded once; without any checklist item all of them are complete. */
  lemma PercentIs(tasks: seq<Task>)
    ensures ChecklistTotal(tasks) == 0 ==> ChecklistPercent(tasks) == 100
    ensures ChecklistTotal(tasks) > 0 ==>
      IsPercent(ChecklistPercent(tasks) as real, ChecklistCompleted(tasks) as real, ChecklistTotal(tasks) as real)
  {
    if ChecklistTotal(tasks) > 0 { PercentOfIs(ChecklistCompleted(tasks), ChecklistTotal(tasks)); }
  }

  lemma PercentOfIs(k: int, n: int)
    requires n > 0
    ensures IsPercent(PercentOf(k, n) as real, k as real, n as real)
  {
    RoundNearest((k as real / n as real) * 100.0);
    Unscaled(k as real, n as real);
    PercentScales(k as real / n as real, k as real, n as real, PercentOf(k, n) as real);
  }

  /** `p` percent of `n`, half a percent more or less, are `k`. */
  predicate IsPercent(p: real, k: real, n: real) {
    true <==>
    (p - 0.5) * n <= 100.0 * k < (p + 0.5) * n
  }

  lemma PercentScales(q: real, k: real, n: real, p: real)
    requires n > 0.0 && q * n == k && p - 0.5 <= q * 100.0 < p + 0.5
    ensures IsPercent(p, k, n)
  {
    Regroup(q, n);
    Scaled(p - 0.5, q * 100.0, n);
    ScaledStrictly(q * 100.0, p + 0.5, n);
  }

  lemma Unscaled(k: real, n: real)
    requires n > 0.0
    ensures (k / n) * n == k
  {
  }

  lemma Regroup(q: real, n: real)
    ensures (q * 100.0) * n == 100.0 * (q * n)
  {
  }

  lemma Scaled(a: real, b: real, n: real)
    requires a <= b && n > 0.0
    ensures a * n <= b * n
  {
  }

  lemma ScaledStrictly(a: real, b: real, n: real)
    requires a < b && n > 0.0
    ensures a * n < b * n
  {
  }

  lemma ShareStep(k: int, n: int)
    requires n > 0
    ensures Share(k + 1, n) == Share(k, n) + 1.0 / n as real
  {
  }

  /** Of two boards that differ in their checklists only, every percent is worth a quarter of a point. */
  lemma ChecklistShare(a: seq<Task>, b: seq<Task>, now: int)
    requires |a| == |b| > 0 && CountDone(a) == CountDone(b) && CountUnassigned(a) == CountUnassigned(b)
    requires CountOverdue(a, now) == CountOverdue(b, now)
    ensures RawScore(a, now) - RawScore(b, now) == (ChecklistPercent(a) - ChecklistPercent(b)) as real / 4.0
  {
  }

  /** Finishing a task is worth its share of 55 points, and 8 more if it was overdue. */
  lemma FinishingRaises(tasks: seq<Task>, i: nat, now: int)
    requires i < |tasks|
    ensures RawScore(MarkDone(tasks, i), now) - RawScore(tasks, now) ==
      (if tasks[i].status.Done? then 0.0 else 55.0 / |tasks| as real) + (if Overdue(tasks[i], now) then 8.0 else 0.0)
  {
    MarkDoneCounts(tasks, i, now);
    ShareStep(CountDone(tasks), |tasks|);
    Part(55.0, |tasks| as real);
    var done, percent, o := Share(CountDone(tasks), |tasks|), ChecklistPercent(tasks) as real / 100.0,
      CountOverdue(tasks, now) as real;
    var taken := Share(|tasks| - CountUnassigned(tasks), |tasks|);
    PointsMove(done, 1.0 / |tasks| as real, percent, taken, o, 1.0);
    PointsMove(done, 0.0, percent, taken, o, 1.0);
  }

  lemma Part(c: real, n: real)
    requires n > 0.0
    ensures c / n == c * (1.0 / n)
  {
  }

  lemma PointsMove(done: real, d: real, percent: real, taken: real, overdue: real, o: real)
    ensures Points(done + d, percent, taken, overdue - o) - Points(done, percent, taken, overdue) == 55.0 * d + 8.0 * o
    ensures Points(done + d, percent, taken, overdue) - Points(done, percent, taken, overdue) == 55.0 * d
  {
  }

  function Assign(tasks: seq<Task>, i: nat, a: Assignment): seq<Task>
    requires i < |tasks|
  {
    tasks[i := tasks[i].(assignees := tasks[i].assignees + [a])]
  }

  lemma {:induction false} AssignCounts(tasks: seq<Task>, i: nat, a: Assignment, now: int)
    requires i < |tasks|
    ensures var t := Assign(tasks, i, a);
      && CountUnassigned(t) == CountUnassigned(tasks) - (if tasks[i].assignees == [] then 1 else 0)
      && CountDone(t) == CountDone(tasks) && CountOverdue(t, now) == CountOverdue(tasks, now)
      && ChecklistTotal(t) == ChecklistTotal(tasks) && ChecklistCompleted(t) == ChecklistCompleted(tasks)
  {
    var t := Assign(tasks, i, a);
    if i == 0 {
      assert t[1..] == tasks[1..];
    } else {
      AssignCounts(tasks[1..], i - 1, a, now);
      assert t[1..] == Assign(tasks[1..], i - 1, a);
    }
  }

  /** Assigning a task that nobody had is worth its share of 20 points. */
  lemma AssigningRaises(tasks: seq<Task>, i: nat, a: Assignment, now: int)
    requires i < |tasks| && tasks[i].assignees == []
    ensures RawScore(Assign(tasks, i, a), now) - RawScore(tasks, now) == 20.0 / |tasks| as real
  {
    AssignCounts(tasks, i, a, now);
    ShareStep(|tasks| - CountUnassigned(tasks), |tasks|);
  }

  /** A board on which nothing is done, assigned, ticked or overdue has no points. */
  lemma NothingDone(tasks: seq<Task>, now: int)
    requires tasks != [] && CountDone(tasks) == 0 && CountUnassigned(tasks) == |tasks| && CountOverdue(tasks, now) == 0
    requires ChecklistPercent(tasks) == 0
    ensures RawScore(tasks, now) == 0.0
  {
  }

  /** Ticking an item completes one more of the items there are. */
  lemma {:induction false} TickingCounts(tasks: seq<Task>, i: nat, j: nat)
    requires i < |tasks| && j < |tasks[i].checklist| && !tasks[i].checklist[j]
    ensures var t := tasks[i := tasks[i].(checklist := tasks[i].checklist[j := true])];
      ChecklistCompleted(t) == ChecklistCompleted(tasks) + 1 && ChecklistTotal(t) == ChecklistTotal(tasks)
  {
    var t := tasks[i := tasks[i].(checklist := tasks[i].checklist[j := true])];
    if i == 0 {
      TickOne(tasks[0].checklist, j);
      assert t[1..] == tasks[1..];
    } else {
      TickingCounts(tasks[1..], i - 1, j);
      assert t[1..] == tasks[1..][i - 1 := tasks[i].(checklist := tasks[i].checklist[j := true])];
    }
  }

  lemma {:induction false} TickOne(items: seq<bool>, j: nat)
    requires j < |items| && !items[j]
    ensures CountTrue(items[j := true]) == CountTrue(items) + 1
  {
    if j == 0 {
      assert items[j := true][1..] == items[1..];
    } else {
      TickOne(items[1..], j - 1);
      assert items[j := true][1..] == items[1..][j - 1 := true];
    }
  }

  lemma {:induction false} AllTicked(items: seq<bool>)
    ensures CountTrue(items) == |items| <==> forall j :: 0 <= j < |items| ==> items[j]
  {
    if items != [] {
      AllTicked(items[1..]);
      assert forall j :: 0 <= j < |items[1..]| ==> items[1..][j] == items[j + 1];
    }
  }

  /** All items are complete if and only if no task has one that is not. */
  lemma {:induction false} AllCompleted(tasks: seq<Task>)
    ensures ChecklistCompleted(tasks) <= ChecklistTotal(tasks)
    ensures ChecklistCompleted(tasks) == ChecklistTotal(tasks) <==>
      forall t :: t in tasks ==> forall j :: 0 <= j < |t.checklist| ==> t.checklist[j]
  {
    if tasks != [] {
      AllTicked(tasks[0].checklist);
      AllCompleted(tasks[1..]);
      assert tasks == [tasks[0]] + tasks[1..];
    }
  }

  /** The four labels: a finished board, one with delays or few points, and two in between. */
  lemma LabelExactly(score: int, overdue: nat)
    ensures LabelFor(score, overdue) == Complete <==> overdue == 0 && 95 <= score
    ensures LabelFor(score, overdue) == OnTrack <==> overdue == 0 && 75 <= score < 95
    ensures LabelFor(score, overdue) == NeedsAttention <==> overdue == 0 && 45 <= score < 75
    ensures LabelFor(score, overdue) == AtRisk <==> overdue > 0 || score < 45
  {
  }

  lemma RoundMonotone(x: real, y: real)
    requires x <= y
    ensures Round(x) <= Round(y)
  {
  }

  lemma DivMonotone(a: int, b: int, n: int)
    requires a <= b && n > 0
    ensures a as real / n as real <= b as real / n as real
  {
    assert b as real / n as real - a as real / n as real == (b - a) as real / n as real;
  }

  /** Finishing one task, all else equal, never lowers the score or worsens the label. */
  lemma FinishingNeverLowers(tasks: seq<Task>, i: nat, now: int)
    requires i < |tasks|
    ensures Score(MarkDone(tasks, i), now) >= Score(tasks, now)
    ensures Grade(LabelFor(Score(MarkDone(tasks, i), now), CountOverdue(MarkDone(tasks, i), now)))
      >= Grade(LabelFor(Score(tasks, now), CountOverdue(tasks, now)))
  {
    var t := MarkDone(tasks, i);
    MarkDoneCounts(tasks, i, now);
    DivMonotone(CountDone(tasks), CountDone(t), |tasks|);
    RoundMonotone(RawScore(tasks, now), RawScore(t, now));
  }

  /** A board whose tasks are all finished and assigned and whose checklists are complete scores 100. */
  lemma FinishedBoardComplete(tasks: seq<Task>, now: int)
    requires tasks != [] && CountDone(tasks) == |tasks| && CountUnassigned(tasks) == 0
      && ChecklistCompleted(tasks) == ChecklistTotal(tasks)
    ensures Score(tasks, now) == 100 && LabelFor(Score(tasks, now), CountOverdue(tasks, now)) == Complete
  {
    AllDoneNoneOverdue(tasks, now);
    SelfRatio(|tasks| as real);
    FullChecklist(tasks);
    assert RawScore(tasks, now) == 100.0;
  }

  lemma FullChecklist(tasks: seq<Task>)
    requires ChecklistCompleted(tasks) == ChecklistTotal(tasks)
    ensures ChecklistPercent(tasks) == 100
  {
    if ChecklistTotal(tasks) != 0 { SelfRatio(ChecklistTotal(tasks) as real); }
  }

  lemma SelfRatio(x: real)
    requires x != 0.0
    ensures x / x == 1.0
  {
  }

  lemma {:induction false} AllDoneNoneOverdue(tasks: seq<Task>, now: int)
    ensures CountDone(tasks) + CountOverdue(tasks, now) <= |tasks|
  {
    if tasks != [] { AllDoneNoneOverdue(tasks[1..], now); }
  }

  // ---------------------------------------------------------------- tallies

  datatype Tally = Tally(id: string, user: User, totalTasks: nat, doneTasks: nat, overdueTasks: nat)

  /** One assignment of one task. */
  datatype Pair = Pair(task: Task, user: User)

  function PairsOfTask(t: Task, n: nat): (r: seq<Pair>)
    requires n <= |t.assignees|
    ensures |r| == n
  {
    seq(n, i requires 0 <= i < n => Pair(t, t.assignees[i].user))
  }

  function PairsOf(tasks: seq<Task>): seq<Pair> {
    if tasks == [] then []
    else PairsOf(tasks[..|tasks| - 1]) + PairsOfTask(tasks[|tasks| - 1], |tasks[|tasks| - 1].assignees|)
  }

  /** Overdue tasks are recognised by their id. */
  predicate LateId(tasks: seq<Task>, now: int, id: string) { exists t :: t in tasks && Overdue(t, now) && t.id == id }

  function CountFor(pairs: seq<Pair>, id: string): nat {
    if pairs == [] then 0 else CountFor(pairs[..|pairs| - 1], id) + (if pairs[|pairs| - 1].user.id == id then 1 else 0)
  }

  function CountDoneFor(pairs: seq<Pair>, id: string): nat {
    if pairs == [] then 0 else
      var p := pairs[|pairs| - 1];
      CountDoneFor(pairs[..|pairs| - 1], id) + (if p.user.id == id && p.task.status.Done? then 1 else 0)
  }

  function CountLateFor(all: seq<Task>, now: int, pairs: seq<Pair>, id: string): nat {
    if pairs == [] then 0 else
      var p := pairs[|pairs| - 1];
      var late := p.user.id == id && LateId(all, now, p.task.id);
      CountLateFor(all, now, pairs[..|pairs| - 1], id) + (if late then 1 else 0)
  }

  /** The first user record seen under an id. */
  function FirstUser(pairs: seq<Pair>, id: string): Option<User> {
    if pairs == [] then None
    else if FirstUser(pairs[..|pairs| - 1], id).Some? then FirstUser(pairs[..|pairs| - 1], id)
    else if pairs[|pairs| - 1].user.id == id then Some(pairs[|pairs| - 1].user) else None
  }

  /** The place of an id in the map, which keeps the order of insertion. */
  function Find(tallies: seq<Tally>, id: string): (r: Option<nat>)
    ensures r.Some? ==> r.value < |tallies| && tallies[r.value].id == id
    ensures r.None? ==> forall k :: 0 <= k < |tallies| ==> tallies[k].id != id
  {
    if tallies == [] then None
    else if tallies[|tallies| - 1].id == id then Some(|tallies| - 1)
    else Find(tallies[..|tallies| - 1], id)
  }

  /** The map holds the counts of the assignments seen so far, one tally per user. */
  ghost predicate Tallied(tallies: seq<Tally>, pairs: seq<Pair>, all: seq<Task>, now: int) {
    && (forall a, b :: 0 <= a < b < |tallies| ==> tallies[a].id != tallies[b].id)
    && (forall k :: 0 <= k < |tallies| ==> TallyOK(tallies[k], pairs, all, now))
    && (forall id :: CountFor(pairs, id) > 0 ==> Find(tallies, id).Some?)
    && SumTotals(tallies) == |pairs|
  }

  predicate TallyOK(t: Tally, pairs: seq<Pair>, all: seq<Task>, now: int) {
    && t.totalTasks == CountFor(pairs, t.id) && t.totalTasks > 0
    && t.doneTasks == CountDoneFor(pairs, t.id) && t.overdueTasks == CountLateFor(all, now, pairs, t.id)
    && FirstUser(pairs, t.id) == Some(t.user)
  }

  function SumTotals(tallies: seq<Tally>): nat {
    if tallies == [] then 0 else SumTotals(tallies[..|tallies| - 1]) + tallies[|tallies| - 1].totalTasks
  }

  /** One more assignment of the tally's user. */
  function Counted(t: Tally, done: bool, late: bool): Tally {
    t.(totalTasks := t.totalTasks + 1, doneTasks := t.doneTasks + (if done then 1 else 0),
       overdueTasks := t.overdueTasks + (if late then 1 else 0))
  }

  lemma {:induction false} SumUpdate(tallies: seq<Tally>, k: nat, t: Tally)
    requires k < |tallies|
    ensures SumTotals(tallies[k := t]) == SumTotals(tallies) - tallies[k].totalTasks + t.totalTasks
  {
    var n := |tallies| - 1;
    if k < n {
      SumUpdate(tallies[..n], k, t);
      assert tallies[k := t][..n] == tallies[..n][k := t];
    } else {
      assert tallies[k := t][..n] == tallies[..n];
    }
  }

  lemma {:induction false} AbsentCounts(pairs: seq<Pair>, all: seq<Task>, now: int, id: string)
    requires CountFor(pairs, id) == 0
    ensures CountDoneFor(pairs, id) == 0 && CountLateFor(all, now, pairs, id) == 0 && FirstUser(pairs, id).None?
  {
    if pairs != [] { AbsentCounts(pairs[..|pairs| - 1], all, now, id); }
  }

  lemma OtherTally(t: Tally, pairs: seq<Pair>, p: Pair, all: seq<Task>, now: int)
    requires TallyOK(t, pairs, all, now) && p.user.id != t.id
    ensures TallyOK(t, pairs + [p], all, now)
  {
    assert (pairs + [p])[..|pairs|] == pairs;
  }

  lemma SameTally(t: Tally, pairs: seq<Pair>, p: Pair, all: seq<Task>, now: int)
    requires TallyOK(t, pairs, all, now) && p.user.id == t.id
    ensures TallyOK(Counted(t, p.task.status.Done?, LateId(all, now, p.task.id)), pairs + [p], all, now)
  {
    assert (pairs + [p])[..|pairs|] == pairs;
  }

  lemma NewTally(pairs: seq<Pair>, p: Pair, all: seq<Task>, now: int)
    requires CountFor(pairs, p.user.id) == 0
    ensures TallyOK(Counted(Tally(p.user.id, p.user, 0, 0, 0), p.task.status.Done?, LateId(all, now, p.task.id)),
      pairs + [p], all, now)
  {
    assert (pairs + [p])[..|pairs|] == pairs;
    AbsentCounts(pairs, all, now, p.user.id);
  }

  /** The map after one more assignment: `get ?? fresh`, the increments, `set`. */
  function Bumped(tallies: seq<Tally>, p: Pair, late: bool): seq<Tally> {
    match Find(tallies, p.user.id)
    case Some(k) => tallies[k := Counted(tallies[k], p.task.status.Done?, late)]
    case None => tallies + [Counted(Tally(p.user.id, p.user, 0, 0, 0), p.task.status.Done?, late)]
  }

  lemma {:induction false} FindIs(tallies: seq<Tally>, id: string, k: nat)
    requires k < |tallies| && tallies[k].id == id
    ensures Find(tallies, id).Some?
  {
  }

  /** Ids stay distinct, every id stays in, and the totals grow by one. */
  lemma BumpShape(tallies: seq<Tally>, p: Pair, late: bool)
    requires forall a, b :: 0 <= a < b < |tallies| ==> tallies[a].id != tallies[b].id
    ensures var r := Bumped(tallies, p, late);
      && (forall a, b :: 0 <= a < b < |r| ==> r[a].id != r[b].id)
      && |r| >= |tallies| && (forall k :: 0 <= k < |tallies| ==> r[k].id == tallies[k].id)
      && SumTotals(r) == SumTotals(tallies) + 1
      && Find(r, p.user.id).Some?
  {
    var r := Bumped(tallies, p, late);
    match Find(tallies, p.user.id)
    case Some(k) =>
      SumUpdate(tallies, k, r[k]);
      FindIs(r, p.user.id, k);
    case None =>
      assert r[..|tallies|] == tallies;
      FindIs(r, p.user.id, |tallies|);
  }

  lemma BumpTally(tallies: seq<Tally>, pairs: seq<Pair>, p: Pair, all: seq<Task>, now: int, k: nat)
    requires Tallied(tallies, pairs, all, now) && k < |Bumped(tallies, p, LateId(all, now, p.task.id))|
    ensures TallyOK(Bumped(tallies, p, LateId(all, now, p.task.id))[k], pairs + [p], all, now)
  {
    var r := Bumped(tallies, p, LateId(all, now, p.task.id));
    if k == |tallies| {
      NewTally(pairs, p, all, now);
    } else {
      assert TallyOK(tallies[k], pairs, all, now);
      if tallies[k].id == p.user.id {
        SameTally(tallies[k], pairs, p, all, now);
      } else {
        OtherTally(tallies[k], pairs, p, all, now);
      }
    }
  }

  lemma BumpKnows(tallies: seq<Tally>, pairs: seq<Pair>, p: Pair, all: seq<Task>, now: int, id: string)
    requires Tallied(tallies, pairs, all, now) && CountFor(pairs + [p], id) > 0
    ensures Find(Bumped(tallies, p, LateId(all, now, p.task.id)), id).Some?
  {
    var late := LateId(all, now, p.task.id);
    assert (pairs + [p])[..|pairs|] == pairs;
    BumpShape(tallies, p, late);
    if id != p.user.id {
      var k := Find(tallies, id).value;
      FindIs(Bumped(tallies, p, late), id, k);
    }
  }

  lemma BumpKeeps(tallies: seq<Tally>, pairs: seq<Pair>, p: Pair, all: seq<Task>, now: int)
    requires Tallied(tallies, pairs, all, now)
    ensures Tallied(Bumped(tallies, p, LateId(all, now, p.task.id)), pairs + [p], all, now)
  {
    var r := Bumped(tallies, p, LateId(all, now, p.task.id));
    BumpShape(tallies, p, LateId(all, now, p.task.id));
    forall k | 0 <= k < |r| ensures TallyOK(r[k], pairs + [p], all, now) { BumpTally(tallies, pairs, p, all, now, k); }
    forall id | CountFor(pairs + [p], id) > 0 ensures Find(r, id).Some? { BumpKnows(tallies, pairs, p, all, now, id); }
  }

  /** The assignee tallies, by the nested loops over tasks and assignees. */
  method TallyAssignees(tasks: seq<Task>, now: int) returns (tallies: seq<Tally>)
    ensures Tallied(tallies, PairsOf(tasks), tasks, now)
  {
    tallies := [];
    var i := 0;
    while i < |tasks|
      invariant i <= |tasks| && Tallied(tallies, PairsOf(tasks[..i]), tasks, now)
    {
      tallies := TallyTask(tasks, now, tasks[i], tallies, PairsOf(tasks[..i]));
      assert tasks[..i + 1][..i] == tasks[..i];
      i := i + 1;
    }
    assert tasks[..i] == tasks;
  }

  /** The inner loop: the assignees of one task. */
  method TallyTask(tasks: seq<Task>, now: int, task: Task, before: seq<Tally>, ghost pairs: seq<Pair>)
    returns (tallies: seq<Tally>)
    requires Tallied(before, pairs, tasks, now)
    ensures Tallied(tallies, pairs + PairsOfTask(task, |task.assignees|), tasks, now)
  {
    tallies := before;
    var j := 0;
    assert pairs + PairsOfTask(task, 0) == pairs;
    while j < |task.assignees|
      invariant j <= |task.assignees| && Tallied(tallies, pairs + PairsOfTask(task, j), tasks, now)
    {
      var p := Pair(task, task.assignees[j].user);
      BumpKeeps(tallies, pairs + PairsOfTask(task, j), p, tasks, now);
      assert pairs + PairsOfTask(task, j) + [p] == pairs + PairsOfTask(task, j + 1);
      tallies := Bumped(tallies, p, LateId(tasks, now, task.id));
      j := j + 1;
    }
  }

  predicate UniqueIds(tasks: seq<Task>) { forall i, j :: 0 <= i < j < |tasks| ==> tasks[i].id != tasks[j].id }

  lemma LateIsOverdue(tasks: seq<Task>, now: int, t: Task)
    requires UniqueIds(tasks) && t in tasks
    ensures LateId(tasks, now, t.id) <==> Overdue(t, now)
  {
  }

  lemma {:induction false} DoneAndLate(tasks: seq<Task>, now: int, pairs: seq<Pair>, id: string)
    requires UniqueIds(tasks) && forall p :: p in pairs ==> p.task in tasks
    ensures CountDoneFor(pairs, id) + CountLateFor(tasks, now, pairs, id) <= CountFor(pairs, id)
  {
    if pairs != [] {
      DoneAndLate(tasks, now, pairs[..|pairs| - 1], id);
      assert pairs[|pairs| - 1] in pairs;
      LateIsOverdue(tasks, now, pairs[|pairs| - 1].task);
    }
  }

  lemma {:induction false} PairsFromTasks(tasks: seq<Task>)
    ensures forall p :: p in PairsOf(tasks) ==> p.task in tasks
  {
    if tasks != [] { PairsFromTasks(tasks[..|tasks| - 1]); }
  }

  /** With unique task ids nobody's finished and overdue tasks together exceed the assigned ones. */
  lemma TalliesConsistent(tallies: seq<Tally>, tasks: seq<Task>, now: int, k: nat)
    requires UniqueIds(tasks) && Tallied(tallies, PairsOf(tasks), tasks, now) && k < |tallies|
    ensures tallies[k].doneTasks + tallies[k].overdueTasks <= tallies[k].totalTasks
  {
    PairsFromTasks(tasks);
    DoneAndLate(tasks, now, PairsOf(tasks), tallies[k].id);
    assert TallyOK(tallies[k], PairsOf(tasks), tasks, now);
  }

  /** The assignments of a user to tasks that are themselves overdue. */
  function CountOverdueFor(now: int, pairs: seq<Pair>, id: string): nat {
    if pairs == [] then 0
    else
      var last := pairs[|pairs| - 1];
      CountOverdueFor(now, pairs[..|pairs| - 1], id) + (if last.user.id == id && Overdue(last.task, now) then 1 else 0)
  }

  /** A task of the user that is not overdue has the id of one that is. */
  predicate HasLateDouble(all: seq<Task>, now: int, pairs: seq<Pair>, id: string) {
    exists p :: p in pairs && p.user.id == id && LateId(all, now, p.task.id) && !Overdue(p.task, now)
  }

  lemma {:induction false} LateCounts(all: seq<Task>, now: int, pairs: seq<Pair>, id: string)
    requires forall p :: p in pairs ==> p.task in all
    ensures CountLateFor(all, now, pairs, id) >= CountOverdueFor(now, pairs, id)
    ensures CountLateFor(all, now, pairs, id) > CountOverdueFor(now, pairs, id) <==> HasLateDouble(all, now, pairs, id)
  {
    if pairs != [] {
      var before, last := pairs[..|pairs| - 1], pairs[|pairs| - 1];
      LateCounts(all, now, before, id);
      assert last in pairs && pairs == before + [last];
      assert Overdue(last.task, now) ==> LateId(all, now, last.task.id);
    }
  }

  /**
   * The overdue tally of a user counts their overdue tasks if and only if none of the others shares its id with an
   * overdue task.
   */
  lemma OverdueTallyExactly(tallies: seq<Tally>, tasks: seq<Task>, now: int, k: nat)
    requires Tallied(tallies, PairsOf(tasks), tasks, now) && k < |tallies|
    ensures tallies[k].overdueTasks == CountOverdueFor(now, PairsOf(tasks), tallies[k].id)
      <==> !HasLateDouble(tasks, now, PairsOf(tasks), tallies[k].id)
  {
    PairsFromTasks(tasks);
    LateCounts(tasks, now, PairsOf(tasks), tallies[k].id);
    assert TallyOK(tallies[k], PairsOf(tasks), tasks, now);
  }

  // ---------------------------------------------------------------- blockers

  datatype Kind = OverdueTask | DueSoonTask | UnassignedTask | IncompleteChecklist | NoTasks

  datatype Blocker = Blocker(kind: Kind, taskId: Option<string>, title: string)

  const SHOWN: nat := 8

  predicate Incomplete(t: Task) { exists i :: 0 <= i < |t.checklist| && !t.checklist[i] }

  /** The tasks a kind of blocker is about. */
  predicate Blocks(kind: Kind, t: Task, now: int) {
    match kind
    case OverdueTask => Overdue(t, now)
    case DueSoonTask => DueSoon(t, now)
    case UnassignedTask => Unassigned(t)
    case IncompleteChecklist => Incomplete(t)
    case NoTasks => false
  }

  function BlockersOfKind(kind: Kind, tasks: seq<Task>, now: int): seq<Blocker> {
    if tasks == [] then []
    else
      var rest := BlockersOfKind(kind, tasks[..|tasks| - 1], now);
      var t := tasks[|tasks| - 1];
      if Blocks(kind, t, now) then rest + [Blocker(kind, Some(t.id), t.title)] else rest
  }

  function BlockersOf(tasks: seq<Task>, now: int, unassigned: bool): seq<Blocker> {
    (if tasks == [] then [Blocker(NoTasks, None, "")] else [])
    + BlockersOfKind(OverdueTask, tasks, now) + BlockersOfKind(DueSoonTask, tasks, now)
    + (if unassigned then BlockersOfKind(UnassignedTask, tasks, now) else [])
    + BlockersOfKind(IncompleteChecklist, tasks, now)
  }

  /** `taskAssignedTo` */
  predicate AssignedTo(b: Blocker, tasks: seq<Task>, userId: string) {
    b.taskId.Some? && b.taskId.value != "" &&
    exists t :: t in tasks && t.id == b.taskId.value && exists a :: a in t.assignees && a.userId == userId
  }

  function Priority(tasks: seq<Task>, userId: string): Blocker -> int {
    (b: Blocker) => if AssignedTo(b, tasks, userId) then 0 else 1
  }

  method PushBlockers(kind: Kind, tasks: seq<Task>, now: int, blockers: seq<Blocker>) returns (r: seq<Blocker>)
    ensures r == blockers + BlockersOfKind(kind, tasks, now)
  {
    r := blockers;
    var i := 0;
    while i < |tasks|
      invariant i <= |tasks| && r == blockers + BlockersOfKind(kind, tasks[..i], now)
    {
      assert tasks[..i + 1][..i] == tasks[..i];
      if Blocks(kind, tasks[i], now) {
        r := r + [Blocker(kind, Some(tasks[i].id), tasks[i].title)];
      }
      i := i + 1;
    }
    assert tasks[..i] == tasks;
  }

  /** The blockers shown: pushed kind by kind, the current user's first, cut at eight. */
  method Blockers(tasks: seq<Task>, now: int, unassigned: bool, userId: Option<string>) returns (shown: seq<Blocker>)
    ensures shown == Shown(BlockersOf(tasks, now, unassigned), tasks, userId)
  {
    var blockers := if tasks == [] then [Blocker(NoTasks, None, "")] else [];
    blockers := PushBlockers(OverdueTask, tasks, now, blockers);
    blockers := PushBlockers(DueSoonTask, tasks, now, blockers);
    if unassigned { blockers := PushBlockers(UnassignedTask, tasks, now, blockers); }
    blockers := PushBlockers(IncompleteChecklist, tasks, now, blockers);
    assert blockers == BlockersOf(tasks, now, unassigned);
    if userId.Some? && userId.value != "" { blockers := Sort(blockers, Priority(tasks, userId.value)); }
    shown := if |blockers| <= SHOWN then blockers else blockers[..SHOWN];
  }

  function Shown(blockers: seq<Blocker>, tasks: seq<Task>, userId: Option<string>): seq<Blocker> {
    var sorted :=
      if userId.Some? && userId.value != "" then Sort(blockers, Priority(tasks, userId.value)) else blockers;
    if |sorted| <= SHOWN then sorted else sorted[..SHOWN]
  }

  /** A blocker of the given kind is listed for exactly the tasks it is about. */
  lemma {:induction false} BlockersComplete(kind: Kind, tasks: seq<Task>, now: int, b: Blocker)
    ensures b in BlockersOfKind(kind, tasks, now) <==>
      b.kind == kind && exists t :: t in tasks && Blocks(kind, t, now) && b.taskId == Some(t.id) && b.title == t.title
  {
    if tasks != [] {
      var before, t := tasks[..|tasks| - 1], tasks[|tasks| - 1];
      BlockersComplete(kind, before, now, b);
      assert forall x :: x in tasks <==> x in before || x == t;
    }
  }

  lemma {:induction false} BlockersConcat(kind: Kind, a: seq<Task>, b: seq<Task>, now: int)
    ensures BlockersOfKind(kind, a + b, now) == BlockersOfKind(kind, a, now) + BlockersOfKind(kind, b, now)
  {
    if b == [] {
      assert a + b == a;
    } else {
      var n := |b| - 1;
      assert (a + b)[..|a + b| - 1] == a + b[..n];
      BlockersConcat(kind, a, b[..n], now);
    }
  }

  /** What a kind of blocker says of a task, in so many words. */
  predicate Due(kind: Kind, t: Task, now: int) {
    match kind
    case OverdueTask => t.status != Done && t.dueDate.Some? && t.dueDate.value - now < 0
    case DueSoonTask => t.status != Done && t.dueDate.Some? && 0 <= t.dueDate.value - now <= 86_400_000
    case UnassignedTask => |t.assignees| == 0
    case IncompleteChecklist => false in t.checklist
    case NoTasks => false
  }

  lemma BlocksExactly(kind: Kind, t: Task, now: int)
    ensures Blocks(kind, t, now) <==> Due(kind, t, now)
    ensures BlockersOfKind(kind, [t], now) == if Due(kind, t, now) then [Blocker(kind, Some(t.id), t.title)] else []
  {
    assert [t][..|[t]| - 1] == [];
  }

  /** The blockers of one kind. */
  function OfKind(blockers: seq<Blocker>, kind: Kind): seq<Blocker> {
    if blockers == [] then []
    else if blockers[0].kind == kind then [blockers[0]] + OfKind(blockers[1..], kind) else OfKind(blockers[1..], kind)
  }

  lemma {:induction false} OfKindConcat(a: seq<Blocker>, b: seq<Blocker>, kind: Kind)
    ensures OfKind(a + b, kind) == OfKind(a, kind) + OfKind(b, kind)
  {
    if a == [] {
      assert a + b == b;
    } else {
      assert (a + b)[1..] == a[1..] + b;
      OfKindConcat(a[1..], b, kind);
    }
  }

  lemma {:induction false} OfOneKind(blockers: seq<Blocker>, own: Kind, kind: Kind)
    requires forall b :: b in blockers ==> b.kind == own
    ensures OfKind(blockers, kind) == if kind == own then blockers else []
  {
    if blockers != [] {
      assert blockers[0] in blockers;
      OfOneKind(blockers[1..], own, kind);
      assert blockers == [blockers[0]] + blockers[1..];
    }
  }

  lemma {:induction false} KindOfBlockers(kind: Kind, tasks: seq<Task>, now: int)
    ensures forall b :: b in BlockersOfKind(kind, tasks, now) ==> b.kind == kind
  {
    if tasks != [] { KindOfBlockers(kind, tasks[..|tasks| - 1], now); }
  }

  /** In which order the kinds are listed. */
  function Turn(kind: Kind): int {
    match kind
    case NoTasks => 0 case OverdueTask => 1 case DueSoonTask => 2 case UnassignedTask => 3 case IncompleteChecklist => 4
  }

  /**
   * The list of blockers: that there are no tasks, then the overdue ones, those due within a day, those that nobody
   * has, if they are asked for, and those with open checklist items; of each kind every task concerned, in the order
   * of the board.
   */
  lemma BlockersExactly(tasks: seq<Task>, now: int, unassigned: bool)
    ensures var r := BlockersOf(tasks, now, unassigned);
      && (forall i, j :: 0 <= i < j < |r| ==> Turn(r[i].kind) <= Turn(r[j].kind))
      && OfKind(r, NoTasks) == (if tasks == [] then [Blocker(NoTasks, None, "")] else [])
      && OfKind(r, OverdueTask) == BlockersOfKind(OverdueTask, tasks, now)
      && OfKind(r, DueSoonTask) == BlockersOfKind(DueSoonTask, tasks, now)
      && OfKind(r, UnassignedTask) == (if unassigned then BlockersOfKind(UnassignedTask, tasks, now) else [])
      && OfKind(r, IncompleteChecklist) == BlockersOfKind(IncompleteChecklist, tasks, now)
  {
    var none := if tasks == [] then [Blocker(NoTasks, None, "")] else [];
    var late, soon := BlockersOfKind(OverdueTask, tasks, now), BlockersOfKind(DueSoonTask, tasks, now);
    var free := if unassigned then BlockersOfKind(UnassignedTask, tasks, now) else [];
    var open := BlockersOfKind(IncompleteChecklist, tasks, now);
    KindOfBlockers(OverdueTask, tasks, now);
    KindOfBlockers(DueSoonTask, tasks, now);
    KindOfBlockers(UnassignedTask, tasks, now);
    KindOfBlockers(IncompleteChecklist, tasks, now);
    KindsApart(none, late, soon, free, open, NoTasks);
    KindsApart(none, late, soon, free, open, OverdueTask);
    KindsApart(none, late, soon, free, open, DueSoonTask);
    KindsApart(none, late, soon, free, open, UnassignedTask);
    KindsApart(none, late, soon, free, open, IncompleteChecklist);
    TurnsAscend(none, late, soon, free, open);
  }

  /** Five lists, each of its own kind. */
  predicate Kinds(none: seq<Blocker>, late: seq<Blocker>, soon: seq<Blocker>, free: seq<Blocker>, open: seq<Blocker>) {
    && (forall b :: b in none ==> b.kind == NoTasks) && (forall b :: b in late ==> b.kind == OverdueTask)
    && (forall b :: b in soon ==> b.kind == DueSoonTask) && (forall b :: b in free ==> b.kind == UnassignedTask)
    && (forall b :: b in open ==> b.kind == IncompleteChecklist)
  }

  lemma KindsApart(none: seq<Blocker>, late: seq<Blocker>, soon: seq<Blocker>, free: seq<Blocker>, open: seq<Blocker>,
    kind: Kind)
    requires Kinds(none, late, soon, free, open)
    ensures OfKind(none + late + soon + free + open, kind) ==
      match kind
      case NoTasks => none case OverdueTask => late case DueSoonTask => soon case UnassignedTask => free
      case IncompleteChecklist => open
  {
    OfKindConcat(none + late + soon + free, open, kind);
    OfKindConcat(none + late + soon, free, kind);
    OfKindConcat(none + late, soon, kind);
    OfKindConcat(none, late, kind);
    OfOneKind(none, NoTasks, kind);
    OfOneKind(late, OverdueTask, kind);
    OfOneKind(soon, DueSoonTask, kind);
    OfOneKind(free, UnassignedTask, kind);
    OfOneKind(open, IncompleteChecklist, kind);
  }

  lemma TurnsAscend(none: seq<Blocker>, late: seq<Blocker>, soon: seq<Blocker>, free: seq<Blocker>, open: seq<Blocker>)
    requires Kinds(none, late, soon, free, open)
    ensures var r := none + late + soon + free + open;
      forall i, j :: 0 <= i < j < |r| ==> Turn(r[i].kind) <= Turn(r[j].kind)
  {
    AscendConcat(none, late, 1);
    AscendConcat(none + late, soon, 2);
    AscendConcat(none + late + soon, free, 3);
    AscendConcat(none + late + soon + free, open, 4);
  }

  predicate Ascends(r: seq<Blocker>, most: int) {
    && (forall i, j :: 0 <= i < j < |r| ==> Turn(r[i].kind) <= Turn(r[j].kind))
    && forall i :: 0 <= i < |r| ==> Turn(r[i].kind) <= most
  }

  lemma AscendConcat(a: seq<Blocker>, b: seq<Blocker>, turn: int)
    requires Ascends(a, turn) && forall x :: x in b ==> Turn(x.kind) == turn
    ensures Ascends(a + b, turn) && Ascends(a + b, turn + 1)
  {
    forall i | 0 <= i < |b| ensures Turn(b[i].kind) == turn { assert b[i] in b; }
  }

  /** At most eight are shown, and without a current user they are the first ones. */
  lemma ShownAre(blockers: seq<Blocker>, tasks: seq<Task>, userId: Option<string>)
    ensures |Shown(blockers, tasks, userId)| == if |blockers| <= 8 then |blockers| else 8
    ensures userId.None? || userId.value == "" ==> Shown(blockers, tasks, userId) <= blockers
  {
    if userId.Some? {
      SortIsStable(blockers, Priority(tasks, userId.value));
      assert |multiset(Sort(blockers, Priority(tasks, userId.value)))| == |multiset(blockers)|;
    }
  }

  /** A blocker about a task that is assigned to the user. */
  predicate Own(b: Blocker, tasks: seq<Task>, userId: string) {
    exists t, a :: t in tasks && a in t.assignees && t.id != "" && b.taskId == Some(t.id) && a.userId == userId
  }

  /**
   * The current user's blockers come first and keep their order; another's is shown only when all of the user's
   * are, and nothing is shown that is not a blocker.
   */
  lemma OwnBlockersFirst(blockers: seq<Blocker>, tasks: seq<Task>, userId: string)
    requires userId != ""
    ensures var shown, sorted := Shown(blockers, tasks, Some(userId)), Sort(blockers, Priority(tasks, userId));
      && shown <= sorted && multiset(sorted) == multiset(blockers)
      && WithKey(sorted, Priority(tasks, userId), 0) == WithKey(blockers, Priority(tasks, userId), 0)
      && (forall i, j :: 0 <= i < j < |sorted| && Own(sorted[j], tasks, userId) ==> Own(sorted[i], tasks, userId))
  {
    var key := Priority(tasks, userId);
    SortIsStable(blockers, key);
    var sorted := Sort(blockers, key);
    forall i, j | 0 <= i < j < |sorted| && Own(sorted[j], tasks, userId) ensures Own(sorted[i], tasks, userId) {
      OwnIsAssigned(sorted[i], tasks, userId);
      OwnIsAssigned(sorted[j], tasks, userId);
      assert key(sorted[i]) <= key(sorted[j]);
    }
  }

  lemma OwnIsAssigned(b: Blocker, tasks: seq<Task>, userId: string)
    ensures Own(b, tasks, userId) <==> AssignedTo(b, tasks, userId)
  {
  }
}

/** The approval workflow's two tables and what each operation does to them, as values
    (services/workflow-service/app/repository.py). */
module WorkflowStore {
  import opened Wrappers

  /** Stands for a fresh uuid: the number of tasks created before. */
  type TaskId = nat

  datatype Status = Draft | PendingApproval | Approved | Rejected | InProgress | Completed

  datatype Decision = Approve | Reject

  datatype TaskCreate = TaskCreate(assetName: string, wave: string, action: Option<string>, requestedBy: string)

  datatype Task = Task(id: TaskId, assetName: string, wave: string, action: Option<string>, requestedBy: string,
                       status: Status, createdAt: int)

  datatype Approval = Approval(taskId: TaskId, approver: string, decision: Decision, note: Option<string>)

  datatype Store = Store(tasks: seq<Task>, approvals: seq<Approval>, created: nat)

  datatype Error = InvalidTransition(current: Status, wanted: Status) | NotPending | SamePerson

  // ----- reading

  function Find(tasks: seq<Task>, id: TaskId): (t: Option<Task>)
    ensures t.Some? ==> t.value in tasks && t.value.id == id
    ensures t.None? ==> forall task | task in tasks :: task.id != id
  {
    if tasks == [] then None
    else if tasks[0].id == id then Some(tasks[0])
    else Find(tasks[1..], id)
  }

  /** `IS NOT DISTINCT FROM`: a missing action matches a missing action only. */
  predicate Matches(t: Task, p: TaskCreate) {
    t.assetName == p.assetName && t.wave == p.wave && t.action == p.action
  }

  /** The newest matching task. */
  function FindExisting(tasks: seq<Task>, p: TaskCreate): (t: Option<Task>)
    ensures t.Some? ==> t.value in tasks && Matches(t.value, p)
    ensures t.Some? ==> forall task | task in tasks && Matches(task, p) :: task.createdAt <= t.value.createdAt
    ensures t.None? ==> forall task | task in tasks :: !Matches(task, p)
  {
    if tasks == [] then None
    else
      var rest := FindExisting(tasks[1..], p);
      if Matches(tasks[0], p) && (rest.None? || tasks[0].createdAt >= rest.value.createdAt) then Some(tasks[0]) else rest
  }

  predicate Allowed(current: Status, wanted: Status) {
    match current
    case Draft => wanted == PendingApproval
    case PendingApproval => wanted == Approved || wanted == Rejected
    case Approved => wanted == InProgress
    case Rejected => wanted == Draft
    case InProgress => wanted == Completed
    case Completed => false
  }

  // ----- writing

  function SetStatus(tasks: seq<Task>, id: TaskId, status: Status): (r: seq<Task>)
    ensures |r| == |tasks|
    ensures forall i | 0 <= i < |r| :: r[i] == if tasks[i].id == id then tasks[i].(status := status) else tasks[i]
  {
    seq(|tasks|, i requires 0 <= i < |tasks| => if tasks[i].id == id then tasks[i].(status := status) else tasks[i])
  }

  function NewTask(s: Store, p: TaskCreate, now: int): Task {
    Task(s.created, p.assetName, p.wave, p.action, p.requestedBy, Draft, now)
  }

  function AfterCreate(s: Store, p: TaskCreate, now: int): Store {
    if FindExisting(s.tasks, p).Some? then s
    else s.(tasks := s.tasks + [NewTask(s, p, now)], created := s.created + 1)
  }

  function AfterUpdate(s: Store, id: TaskId, status: Status): Store {
    var task := Find(s.tasks, id);
    if task.Some? && Allowed(task.value.status, status) then s.(tasks := SetStatus(s.tasks, id, status)) else s
  }

  function Outcome(d: Decision): Status {
    if d == Approve then Approved else Rejected
  }

  function AfterApproval(s: Store, a: Approval): Store {
    var task := Find(s.tasks, a.taskId);
    if task.Some? && task.value.status == PendingApproval && a.approver != task.value.requestedBy
    then Store(SetStatus(s.tasks, a.taskId, Outcome(a.decision)), s.approvals + [a], s.created)
    else s
  }

  // ----- cleanup

  /** `COALESCE(recommended_action, '')`. */
  function CoalescedKey(t: Task): (string, string, string) {
    (t.assetName, t.wave, if t.action.Some? then t.action.value else "")
  }

  function Keys(rows: seq<Task>): set<(string, string, string)> {
    set t | t in rows :: CoalescedKey(t)
  }

  /** The ids of the rows whose key has come up before. */
  function Repeats(rows: seq<Task>): seq<TaskId> {
    if rows == [] then []
    else
      var front, last := rows[..|rows| - 1], rows[|rows| - 1];
      if CoalescedKey(last) in Keys(front) then Repeats(front) + [last.id] else Repeats(front)
  }

  /** The rows that do not match `id IN ids`. */
  function TasksWithout(tasks: seq<Task>, ids: seq<TaskId>): seq<Task> {
    if tasks == [] then []
    else
      var front, last := TasksWithout(tasks[..|tasks| - 1], ids), tasks[|tasks| - 1];
      if last.id in ids then front else front + [last]
  }

  function ApprovalsWithout(approvals: seq<Approval>, ids: seq<TaskId>): seq<Approval> {
    if approvals == [] then []
    else
      var front, last := ApprovalsWithout(approvals[..|approvals| - 1], ids), approvals[|approvals| - 1];
      if last.taskId in ids then front else front + [last]
  }

  lemma {:induction false} TasksWithoutNothing(tasks: seq<Task>)
    ensures TasksWithout(tasks, []) == tasks
  {
    if tasks != [] {
      TasksWithoutNothing(tasks[..|tasks| - 1]);
    }
  }

  lemma {:induction false} ApprovalsWithoutNothing(approvals: seq<Approval>)
    ensures ApprovalsWithout(approvals, []) == approvals
  {
    if approvals != [] {
      ApprovalsWithoutNothing(approvals[..|approvals| - 1]);
    }
  }

  /** What `SELECT … ORDER BY created_at DESC` may answer: all tasks, newest first, equal times in any order. */
  ghost predicate NewestFirst(rows: seq<Task>, tasks: seq<Task>) {
    && multiset(rows) == multiset(tasks)
    && (forall i, j | 0 <= i < j < |rows| :: rows[i].createdAt >= rows[j].createdAt)
  }

  function AfterCleanup(s: Store, rows: seq<Task>): Store {
    s.(tasks := TasksWithout(s.tasks, Repeats(rows)), approvals := ApprovalsWithout(s.approvals, Repeats(rows)))
  }

  // ----- operations and runs

  datatype Op =
    | Create(payload: TaskCreate, now: int)
    | Update(id: TaskId, status: Status)
    | Decide(approval: Approval)
    | Cleanup(rows: seq<Task>)

  ghost predicate Legal(s: Store, op: Op) {
    op.Cleanup? ==> NewestFirst(op.rows, s.tasks)
  }

  function After(s: Store, op: Op): Store {
    match op
    case Create(payload, now) => AfterCreate(s, payload, now)
    case Update(id, status) => AfterUpdate(s, id, status)
    case Decide(approval) => AfterApproval(s, approval)
    case Cleanup(rows) => AfterCleanup(s, rows)
  }

  ghost predicate LegalRun(s: Store, ops: seq<Op>)
    decreases |ops|
  {
    ops == [] || (Legal(s, ops[0]) && LegalRun(After(s, ops[0]), ops[1..]))
  }

  function AfterRun(s: Store, ops: seq<Op>): Store
    decreases |ops|
  {
    if ops == [] then s else AfterRun(After(s, ops[0]), ops[1..])
  }

  const EMPTY := Store([], [], 0)
}

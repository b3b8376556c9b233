/** What every sequential run of the workflow store keeps, and what cleanup does. */
module WorkflowRuns {
  import opened Wrappers
  import opened WorkflowStore
  import StableSort

  // ----- the invariant

  function DecisionsOf(approvals: seq<Approval>, id: TaskId): seq<Decision> {
    if approvals == [] then []
    else
      var front, last := DecisionsOf(approvals[..|approvals| - 1], id), approvals[|approvals| - 1];
      if last.taskId == id then front + [last.decision] else front
  }

  ghost predicate DistinctIds(s: Store) {
    && (forall i, j | 0 <= i < j < |s.tasks| :: s.tasks[i].id != s.tasks[j].id)
    && (forall t | t in s.tasks :: t.id < s.created)
  }

  predicate SameKey(t: Task, u: Task) {
    t.assetName == u.assetName && t.wave == u.wave && t.action == u.action
  }

  ghost predicate DistinctKeys(s: Store) {
    forall i, j | 0 <= i < j < |s.tasks| :: !SameKey(s.tasks[i], s.tasks[j])
  }

  /** Somebody other than the requester of an existing task decided. */
  ghost predicate ProperlyDecided(s: Store, a: Approval) {
    exists t | t in s.tasks :: t.id == a.taskId && t.requestedBy != a.approver
  }

  ghost predicate ApprovalsRefer(s: Store) {
    forall a | a in s.approvals :: ProperlyDecided(s, a)
  }

  predicate PastApproval(status: Status) {
    status == Approved || status == InProgress || status == Completed
  }

  /** Rejections, then at most one approval; and an approved task has left the approval stage for good. */
  ghost predicate DecidedInOrder(ds: seq<Decision>, status: Status) {
    && (forall i | 0 <= i < |ds| - 1 :: ds[i] == Reject)
    && (ds != [] && ds[|ds| - 1] == Approve ==> PastApproval(status))
  }

  ghost predicate DecisionsInOrder(s: Store) {
    forall t | t in s.tasks :: DecidedInOrder(DecisionsOf(s.approvals, t.id), t.status)
  }

  ghost predicate Inv(s: Store) {
    DistinctIds(s) && DistinctKeys(s) && ApprovalsRefer(s) && DecisionsInOrder(s)
  }

  // ----- creating

  lemma {:induction false} NoDecisionsYet(approvals: seq<Approval>, id: TaskId)
    requires forall a | a in approvals :: a.taskId != id
    ensures DecisionsOf(approvals, id) == []
  {
    if approvals != [] {
      NoDecisionsYet(approvals[..|approvals| - 1], id);
    }
  }

  lemma CreateKeepsShape(s: Store, t: Task)
    requires DistinctIds(s) && DistinctKeys(s) && t.id == s.created && forall u | u in s.tasks :: !SameKey(u, t)
    ensures var s' := s.(tasks := s.tasks + [t], created := s.created + 1); DistinctIds(s') && DistinctKeys(s')
  {
    hide SameKey;
    forall i | 0 <= i < |s.tasks| ensures s.tasks[i].id != t.id && !SameKey(s.tasks[i], t) {
      assert s.tasks[i] in s.tasks;
    }
  }

  lemma CreateKeepsInv(s: Store, p: TaskCreate, now: int)
    requires Inv(s)
    ensures Inv(AfterCreate(s, p, now))
  {
    if FindExisting(s.tasks, p).None? {
      var s', t := AfterCreate(s, p, now), NewTask(s, p, now);
      assert s' == s.(tasks := s.tasks + [t], created := s.created + 1);
      assert DecidedInOrder([], Draft);
      CreateKeepsShape(s, t);
      hide FindExisting, AfterCreate, DecidedInOrder;
      forall a | a in s'.approvals ensures ProperlyDecided(s', a) && a.taskId != t.id {
        var u :| u in s.tasks && u.id == a.taskId && u.requestedBy != a.approver;
        assert u in s'.tasks;
      }
      NoDecisionsYet(s.approvals, t.id);
    }
  }

  // ----- changing a status

  /** `s'` is `s` with the status of task `id` set. */
  lemma SetStatusKeepsShape(s: Store, id: TaskId, status: Status)
    requires DistinctIds(s) && DistinctKeys(s)
    ensures var s' := s.(tasks := SetStatus(s.tasks, id, status)); DistinctIds(s') && DistinctKeys(s')
  {
    var tasks' := SetStatus(s.tasks, id, status);
    assert forall i | 0 <= i < |tasks'| :: tasks'[i].id == s.tasks[i].id;
    assert forall i, j | 0 <= i < j < |tasks'| :: SameKey(tasks'[i], tasks'[j]) <==> SameKey(s.tasks[i], s.tasks[j]);
    hide SetStatus, SameKey;
    forall t | t in tasks' ensures t.id < s.created {
      var i :| 0 <= i < |tasks'| && tasks'[i] == t;
      assert s.tasks[i] in s.tasks;
    }
  }

  lemma StillDecided(s: Store, id: TaskId, status: Status, a: Approval)
    requires ProperlyDecided(s, a)
    ensures ProperlyDecided(s.(tasks := SetStatus(s.tasks, id, status)), a)
  {
    var t :| t in s.tasks && t.id == a.taskId && t.requestedBy != a.approver;
    var i :| 0 <= i < |s.tasks| && s.tasks[i] == t;
    var tasks' := SetStatus(s.tasks, id, status);
    assert tasks'[i] in tasks' && tasks'[i].id == a.taskId && tasks'[i].requestedBy == t.requestedBy;
  }

  lemma UpdateKeepsInv(s: Store, id: TaskId, status: Status)
    requires Inv(s)
    ensures Inv(AfterUpdate(s, id, status))
  {
    var found := Find(s.tasks, id);
    if found.Some? && Allowed(found.value.status, status) {
      var s' := AfterUpdate(s, id, status);
      SetStatusKeepsShape(s, id, status);
      hide Find, SetStatus, DecisionsOf, DecidedInOrder, ProperlyDecided;
      forall a | a in s'.approvals ensures ProperlyDecided(s', a) {
        StillDecided(s, id, status, a);
      }
      forall t | t in s'.tasks ensures DecidedInOrder(DecisionsOf(s'.approvals, t.id), t.status) {
        var i :| 0 <= i < |s'.tasks| && s'.tasks[i] == t;
        assert s.tasks[i] in s.tasks;
        if t.id == id {
          OnlyOne(s, found.value, s.tasks[i]);
          TransitionKeepsOrder(DecisionsOf(s.approvals, id), found.value.status, status);
        }
      }
    }
  }

  lemma TransitionKeepsOrder(ds: seq<Decision>, current: Status, wanted: Status)
    requires DecidedInOrder(ds, current) && Allowed(current, wanted)
    ensures DecidedInOrder(ds, wanted)
  {
  }

  lemma OnlyOne(s: Store, t: Task, u: Task)
    requires DistinctIds(s) && t in s.tasks && u in s.tasks && t.id == u.id
    ensures t == u
  {
  }

  // ----- deciding

  lemma OneMoreDecision(approvals: seq<Approval>, a: Approval, id: TaskId)
    ensures DecisionsOf(approvals + [a], id) == if a.taskId == id then DecisionsOf(approvals, id) + [a.decision] else DecisionsOf(approvals, id)
  {
    assert (approvals + [a])[..|approvals|] == approvals;
  }

  lemma DecisionKeepsOrder(ds: seq<Decision>, d: Decision)
    requires DecidedInOrder(ds, PendingApproval)
    ensures DecidedInOrder(ds + [d], Outcome(d))
  {
  }

  lemma ApprovalKeepsInv(s: Store, a: Approval)
    requires Inv(s)
    ensures Inv(AfterApproval(s, a))
  {
    var found := Find(s.tasks, a.taskId);
    if found.Some? && found.value.status == PendingApproval && a.approver != found.value.requestedBy {
      var s', id := AfterApproval(s, a), a.taskId;
      SetStatusKeepsShape(s, id, Outcome(a.decision));
      hide Find, SetStatus, DecisionsOf, DecidedInOrder;
      assert ProperlyDecided(s, a);
      forall b | b in s'.approvals ensures ProperlyDecided(s', b) {
        assert b in s.approvals || b == a;
        StillDecided(s, id, Outcome(a.decision), b);
      }
      forall t | t in s'.tasks ensures DecidedInOrder(DecisionsOf(s'.approvals, t.id), t.status) {
        var i :| 0 <= i < |s'.tasks| && s'.tasks[i] == t;
        assert s.tasks[i] in s.tasks;
        OneMoreDecision(s.approvals, a, t.id);
        if t.id == id {
          OnlyOne(s, found.value, s.tasks[i]);
          DecisionKeepsOrder(DecisionsOf(s.approvals, id), a.decision);
        }
      }
    }
  }

  // ----- cleaning up

  lemma {:induction false} TasksWithoutMembers(tasks: seq<Task>, ids: seq<TaskId>)
    ensures forall t :: t in TasksWithout(tasks, ids) <==> t in tasks && t.id !in ids
  {
    if tasks != [] {
      TasksWithoutMembers(tasks[..|tasks| - 1], ids);
      assert tasks == tasks[..|tasks| - 1] + [tasks[|tasks| - 1]];
    }
  }

  lemma {:induction false} ApprovalsWithoutMembers(approvals: seq<Approval>, ids: seq<TaskId>)
    ensures forall a :: a in ApprovalsWithout(approvals, ids) <==> a in approvals && a.taskId !in ids
  {
    if approvals != [] {
      ApprovalsWithoutMembers(approvals[..|approvals| - 1], ids);
      assert approvals == approvals[..|approvals| - 1] + [approvals[|approvals| - 1]];
    }
  }

  /** Deleting other tasks' approvals leaves a task's own as they were, in order. */
  lemma {:induction false} OtherDecisionsStay(approvals: seq<Approval>, ids: seq<TaskId>, id: TaskId)
    requires id !in ids
    ensures DecisionsOf(ApprovalsWithout(approvals, ids), id) == DecisionsOf(approvals, id)
  {
    if approvals != [] {
      var front, last := approvals[..|approvals| - 1], approvals[|approvals| - 1];
      OtherDecisionsStay(front, ids, id);
      if last.taskId !in ids {
        OneMoreDecision(ApprovalsWithout(front, ids), last, id);
      }
    }
  }

  ghost predicate Shape(tasks: seq<Task>, created: nat) {
    && (forall i, j | 0 <= i < j < |tasks| :: tasks[i].id != tasks[j].id && !SameKey(tasks[i], tasks[j]))
    && (forall t | t in tasks :: t.id < created)
  }

  lemma ShapeSnoc(tasks: seq<Task>, last: Task, created: nat)
    requires Shape(tasks, created) && last.id < created && forall t | t in tasks :: t.id != last.id && !SameKey(t, last)
    ensures Shape(tasks + [last], created)
  {
    hide SameKey;
  }

  lemma ShapeFront(tasks: seq<Task>, created: nat)
    requires Shape(tasks, created) && tasks != []
    ensures var front, last := tasks[..|tasks| - 1], tasks[|tasks| - 1];
            Shape(front, created) && last.id < created && forall t | t in front :: t.id != last.id && !SameKey(t, last)
  {
    hide SameKey;
  }

  lemma {:induction false} DeletionKeepsShape(tasks: seq<Task>, created: nat, ids: seq<TaskId>)
    requires Shape(tasks, created)
    ensures Shape(TasksWithout(tasks, ids), created)
  {
    if tasks != [] {
      var front, last := tasks[..|tasks| - 1], tasks[|tasks| - 1];
      ShapeFront(tasks, created);
      hide Shape, SameKey;
      DeletionKeepsShape(front, created, ids);
      TasksWithoutMembers(front, ids);
      ShapeSnoc(TasksWithout(front, ids), last, created);
    }
  }

  lemma ShapeIs(s: Store)
    ensures Shape(s.tasks, s.created) <==> DistinctIds(s) && DistinctKeys(s)
  {
    hide SameKey;
  }

  lemma CleanupKeepsInv(s: Store, rows: seq<Task>)
    requires Inv(s)
    ensures Inv(AfterCleanup(s, rows))
  {
    var s', ids := AfterCleanup(s, rows), Repeats(rows);
    ShapeIs(s);
    ShapeIs(s');
    DeletionKeepsShape(s.tasks, s.created, ids);
    TasksWithoutMembers(s.tasks, ids);
    ApprovalsWithoutMembers(s.approvals, ids);
    hide TasksWithout, ApprovalsWithout, DecisionsOf, Repeats, DecidedInOrder, Shape, DistinctKeys;
    forall a | a in s'.approvals ensures ProperlyDecided(s', a) {
      var t :| t in s.tasks && t.id == a.taskId && t.requestedBy != a.approver;
      assert t in s'.tasks;
    }
    forall t | t in s'.tasks ensures DecidedInOrder(DecisionsOf(s'.approvals, t.id), t.status) {
      OtherDecisionsStay(s.approvals, ids, t.id);
    }
  }

  // ----- runs

  lemma StepKeepsInv(s: Store, op: Op)
    requires Inv(s) && Legal(s, op)
    ensures Inv(After(s, op))
  {
    hide *;
    match op
    case Create(payload, now) => CreateKeepsInv(s, payload, now); AfterIs(s, op);
    case Update(id, status) => UpdateKeepsInv(s, id, status); AfterIs(s, op);
    case Decide(approval) => ApprovalKeepsInv(s, approval); AfterIs(s, op);
    case Cleanup(rows) => CleanupKeepsInv(s, rows); AfterIs(s, op);
  }

  lemma AfterIs(s: Store, op: Op)
    ensures After(s, op) == match op
                            case Create(payload, now) => AfterCreate(s, payload, now)
                            case Update(id, status) => AfterUpdate(s, id, status)
                            case Decide(approval) => AfterApproval(s, approval)
                            case Cleanup(rows) => AfterCleanup(s, rows)
  {
  }

  lemma {:induction false} RunKeepsInv(s: Store, ops: seq<Op>)
    requires Inv(s) && LegalRun(s, ops)
    ensures Inv(AfterRun(s, ops))
    decreases |ops|
  {
    hide Inv, After, Legal;
    if ops != [] {
      StepKeepsInv(s, ops[0]);
      RunKeepsInv(After(s, ops[0]), ops[1..]);
    }
  }

  lemma EmptyStoreIsSound()
    ensures Inv(EMPTY)
  {
  }

  /** Over every run: no two tasks share asset, wave and action; every decision is about an existing task
      and not its requester's own; and the decisions on a task are rejections, then at most one approval. */
  lemma EveryRunIsSound(ops: seq<Op>)
    requires LegalRun(EMPTY, ops)
    ensures var s := AfterRun(EMPTY, ops);
            && (forall i, j | 0 <= i < j < |s.tasks| :: !SameKey(s.tasks[i], s.tasks[j]) && s.tasks[i].id != s.tasks[j].id)
            && (forall a | a in s.approvals :: ProperlyDecided(s, a))
            && (forall t | t in s.tasks :: DecidedInOrder(DecisionsOf(s.approvals, t.id), t.status))
  {
    EmptyStoreIsSound();
    RunKeepsInv(EMPTY, ops);
    hide AfterRun, LegalRun, DecisionsOf, DecidedInOrder, ProperlyDecided, SameKey;
  }

  // ----- how a task changes

  /** `t` is still there as it was, or gone for good. */
  ghost predicate SameOrGone(s: Store, t: Task) {
    t.id < s.created && (t in s.tasks || forall u | u in s.tasks :: u.id != t.id)
  }

  lemma StatusUntouched(s: Store, id: TaskId, status: Status, t: Task)
    requires DistinctIds(s) && SameOrGone(s, t) && (t in s.tasks ==> t.id != id)
    ensures SameOrGone(s.(tasks := SetStatus(s.tasks, id, status)), t)
  {
    var tasks' := SetStatus(s.tasks, id, status);
    if t in s.tasks {
      var i :| 0 <= i < |s.tasks| && s.tasks[i] == t;
      assert tasks'[i] == t;
    } else {
      forall u | u in tasks' ensures u.id != t.id {
        var i :| 0 <= i < |tasks'| && tasks'[i] == u;
        assert s.tasks[i] in s.tasks;
      }
    }
  }

  lemma CompletedStays(s: Store, op: Op, t: Task)
    requires Inv(s) && t.status == Completed && SameOrGone(s, t)
    ensures SameOrGone(After(s, op), t)
  {
    hide SetStatus, Find, FindExisting, TasksWithout, ApprovalsWithout, ApprovalsRefer, DecisionsInOrder, DistinctKeys;
    match op
    case Create(_, _) =>
    case Update(id, status) =>
      var found := Find(s.tasks, id);
      if found.Some? && Allowed(found.value.status, status) {
        if t in s.tasks && t.id == id {
          OnlyOne(s, t, found.value);
        }
        StatusUntouched(s, id, status, t);
      }
    case Decide(a) =>
      var found := Find(s.tasks, a.taskId);
      if found.Some? && found.value.status == PendingApproval {
        if t in s.tasks && t.id == a.taskId {
          OnlyOne(s, t, found.value);
        }
        StatusUntouched(s, a.taskId, Outcome(a.decision), t);
      }
    case Cleanup(rows) =>
      TasksWithoutMembers(s.tasks, Repeats(rows));
  }

  lemma {:induction false} CompletedStaysOverRuns(s: Store, ops: seq<Op>, t: Task)
    requires Inv(s) && LegalRun(s, ops) && t.status == Completed && SameOrGone(s, t)
    ensures SameOrGone(AfterRun(s, ops), t)
    decreases |ops|
  {
    hide Inv, After, Legal, SameOrGone;
    if ops != [] {
      StepKeepsInv(s, ops[0]);
      CompletedStays(s, ops[0], t);
      CompletedStaysOverRuns(After(s, ops[0]), ops[1..], t);
    }
  }

  /** Whatever happens after a task is completed: as long as it exists, it is what it was. */
  lemma CompletedIsFinal(ops: seq<Op>, more: seq<Op>, t: Task, t': Task)
    requires LegalRun(EMPTY, ops) && LegalRun(AfterRun(EMPTY, ops), more)
    requires t in AfterRun(EMPTY, ops).tasks && t.status == Completed
    requires t' in AfterRun(AfterRun(EMPTY, ops), more).tasks && t'.id == t.id
    ensures t' == t
  {
    var s := AfterRun(EMPTY, ops);
    EmptyStoreIsSound();
    RunKeepsInv(EMPTY, ops);
    RunKeepsInv(s, more);
    hide AfterRun, LegalRun, ApprovalsRefer, DecisionsInOrder, DistinctKeys;
    CompletedStaysOverRuns(s, more, t);
    OnlyOne(AfterRun(s, more), t', if t in AfterRun(s, more).tasks then t else t');
  }

  // ----- what cleanup achieves

  lemma RowsAreTheTasks(s: Store, rows: seq<Task>)
    requires DistinctIds(s) && NewestFirst(rows, s.tasks)
    ensures forall t :: t in rows <==> t in s.tasks
    ensures forall i, j | 0 <= i < j < |rows| :: rows[i].id != rows[j].id
  {
    forall t ensures t in rows <==> t in s.tasks {
      assert t in rows <==> t in multiset(rows);
      assert t in s.tasks <==> t in multiset(s.tasks);
    }
    StableSort.CountOfDistinct(s.tasks);
    StableSort.DistinctByCount(rows);
    forall i, j | 0 <= i < j < |rows| ensures rows[i].id != rows[j].id {
      if rows[i].id == rows[j].id {
        OnlyOne(s, rows[i], rows[j]);
      }
    }
  }

  ghost predicate DistinctRows(rows: seq<Task>) {
    forall i, j | 0 <= i < j < |rows| :: rows[i].id != rows[j].id
  }

  /** A row with the same key comes earlier. */
  ghost predicate Repeated(rows: seq<Task>, t: Task) {
    exists i, j | 0 <= i < j < |rows| :: rows[j] == t && CoalescedKey(rows[i]) == CoalescedKey(t)
  }

  lemma RepeatedSnoc(front: seq<Task>, last: Task, t: Task)
    requires DistinctRows(front + [last]) && t in front + [last]
    ensures Repeated(front + [last], t) <==> if t == last then CoalescedKey(t) in Keys(front) else Repeated(front, t)
  {
    var rows := front + [last];
    assert rows[|front|] == last;
    if t == last {
      if CoalescedKey(t) in Keys(front) {
        var u :| u in front && CoalescedKey(u) == CoalescedKey(t);
        var i :| 0 <= i < |front| && front[i] == u;
        assert rows[i] == u;
      }
      if i, j :| 0 <= i < j < |rows| && rows[j] == t && CoalescedKey(rows[i]) == CoalescedKey(t) {
        assert rows[i] == front[i];
      }
    } else if Repeated(front, t) {
      var i, j :| 0 <= i < j < |front| && front[j] == t && CoalescedKey(front[i]) == CoalescedKey(t);
      assert rows[i] == front[i] && rows[j] == front[j];
    }
  }

  lemma {:induction false} RepeatsIff(rows: seq<Task>, t: Task)
    requires DistinctRows(rows) && t in rows
    ensures t.id in Repeats(rows) <==> Repeated(rows, t)
  {
    var front, last := rows[..|rows| - 1], rows[|rows| - 1];
    assert rows == front + [last];
    hide CoalescedKey, Keys;
    RepeatedSnoc(front, last, t);
    if t == last {
      if t.id in Repeats(front) {
        RepeatsAreRows(front, t.id);
      }
    } else {
      assert t in front;
      RepeatsIff(front, t);
      assert last.id != t.id by {
        var k :| 0 <= k < |front| && front[k] == t;
        assert rows[k] == t && rows[|front|] == last;
      }
    }
  }

  lemma {:induction false} RepeatsAreRows(rows: seq<Task>, id: TaskId)
    requires id in Repeats(rows)
    ensures exists t | t in rows :: t.id == id
  {
    hide CoalescedKey, Keys;
    var front, last := rows[..|rows| - 1], rows[|rows| - 1];
    assert rows == front + [last];
    if id in Repeats(front) {
      RepeatsAreRows(front, id);
      var t :| t in front && t.id == id;
      assert t in rows;
    } else {
      assert last in rows;
    }
  }

  /** The row of its key that comes first. */
  lemma {:induction false} FirstOfKey(rows: seq<Task>, t: Task) returns (i: nat)
    requires t in rows
    ensures i < |rows| && CoalescedKey(rows[i]) == CoalescedKey(t)
    ensures forall j | 0 <= j < i :: CoalescedKey(rows[j]) != CoalescedKey(t)
    ensures forall k | 0 <= k < |rows| && rows[k] == t :: i <= k
  {
    hide CoalescedKey;
    if CoalescedKey(rows[0]) == CoalescedKey(t) {
      i := 0;
    } else {
      assert rows == [rows[0]] + rows[1..];
      i := FirstOfKey(rows[1..], t);
      forall k | 0 <= k < |rows| && rows[k] == t ensures i + 1 <= k {
        assert k > 0 ==> rows[1..][k - 1] == rows[k];
      }
      i := i + 1;
    }
  }

  ghost predicate NewestOfKey(tasks: seq<Task>, u: Task, t: Task) {
    u in tasks && CoalescedKey(u) == CoalescedKey(t) && u.createdAt >= t.createdAt
  }

  lemma FirstIsKept(s: Store, rows: seq<Task>, t: Task)
    requires DistinctIds(s) && NewestFirst(rows, s.tasks) && t in s.tasks
    ensures exists u :: NewestOfKey(AfterCleanup(s, rows).tasks, u, t)
  {
    RowsAreTheTasks(s, rows);
    TasksWithoutMembers(s.tasks, Repeats(rows));
    hide CoalescedKey, TasksWithout, ApprovalsWithout, Repeats, DistinctIds;
    var i := FirstOfKey(rows, t);
    var u := rows[i];
    var k :| 0 <= k < |rows| && rows[k] == t;
    RepeatsIff(rows, u);
    assert !Repeated(rows, u);
    assert NewestOfKey(AfterCleanup(s, rows).tasks, u, t);
  }

  lemma OneIsKept(s: Store, rows: seq<Task>, t: Task, u: Task)
    requires DistinctIds(s) && NewestFirst(rows, s.tasks)
    requires t in AfterCleanup(s, rows).tasks && u in AfterCleanup(s, rows).tasks && CoalescedKey(t) == CoalescedKey(u)
    ensures t == u
  {
    RowsAreTheTasks(s, rows);
    TasksWithoutMembers(s.tasks, Repeats(rows));
    hide CoalescedKey, TasksWithout, ApprovalsWithout, Repeats, DistinctIds;
    RepeatsIff(rows, t);
    RepeatsIff(rows, u);
    var i :| 0 <= i < |rows| && rows[i] == t;
    var j :| 0 <= j < |rows| && rows[j] == u;
    assert i < j ==> Repeated(rows, u);
    assert j < i ==> Repeated(rows, t);
  }

  ghost predicate OnePerKey(tasks: seq<Task>) {
    forall t, u | t in tasks && u in tasks && CoalescedKey(t) == CoalescedKey(u) :: t == u
  }

  /** Cleanup keeps, of the tasks that agree up to a missing or empty action, exactly a newest one, and
      exactly the approvals of the tasks it keeps. */
  lemma CleanupKeepsTheNewest(s: Store, rows: seq<Task>)
    requires Inv(s) && NewestFirst(rows, s.tasks)
    ensures var s' := AfterCleanup(s, rows);
            && (forall t | t in s'.tasks :: t in s.tasks) && OnePerKey(s'.tasks)
            && (forall t | t in s.tasks :: exists u :: NewestOfKey(s'.tasks, u, t))
            && (forall a :: a in s'.approvals <==> a in s.approvals && exists t | t in s'.tasks :: t.id == a.taskId)
  {
    var s' := AfterCleanup(s, rows);
    TasksWithoutMembers(s.tasks, Repeats(rows));
    ApprovalsWithoutMembers(s.approvals, Repeats(rows));
    hide TasksWithout, ApprovalsWithout, Repeats, CoalescedKey, NewestFirst, DistinctKeys, DecisionsInOrder;
    forall t | t in s.tasks ensures exists u :: NewestOfKey(s'.tasks, u, t) {
      FirstIsKept(s, rows, t);
    }
    forall t, u | t in s'.tasks && u in s'.tasks && CoalescedKey(t) == CoalescedKey(u) ensures t == u {
      OneIsKept(s, rows, t, u);
    }
    forall a ensures a in s'.approvals <==> a in s.approvals && exists t | t in s'.tasks :: t.id == a.taskId {
      if a in s'.approvals {
        assert ProperlyDecided(s, a);
        var t :| t in s.tasks && t.id == a.taskId;
        assert t in s'.tasks;
      }
    }
  }

  lemma {:induction false} NoRepeats(rows: seq<Task>)
    requires OnePerKey(rows) && DistinctRows(rows)
    ensures Repeats(rows) == []
  {
    if rows != [] {
      var front, last := rows[..|rows| - 1], rows[|rows| - 1];
      assert rows == front + [last];
      hide CoalescedKey;
      NoRepeats(front);
      forall u | u in front ensures CoalescedKey(u) != CoalescedKey(last) {
        var k :| 0 <= k < |front| && front[k] == u;
        assert rows[k] == u && rows[|front|] == last;
      }
    }
  }

  /** Where every key is there once, cleanup does nothing, whatever order the database answers in. */
  lemma NothingToCleanUp(s: Store, rows: seq<Task>)
    requires DistinctIds(s) && OnePerKey(s.tasks) && NewestFirst(rows, s.tasks)
    ensures AfterCleanup(s, rows) == s
  {
    RowsAreTheTasks(s, rows);
    hide CoalescedKey, NewestFirst, DistinctIds;
    NoRepeats(rows);
    TasksWithoutNothing(s.tasks);
    ApprovalsWithoutNothing(s.approvals);
  }

  /** So cleaning up twice is cleaning up once. */
  lemma CleanupIsIdempotent(s: Store, rows: seq<Task>, again: seq<Task>)
    requires Inv(s) && NewestFirst(rows, s.tasks) && NewestFirst(again, AfterCleanup(s, rows).tasks)
    ensures AfterCleanup(AfterCleanup(s, rows), again) == AfterCleanup(s, rows)
  {
    CleanupKeepsInv(s, rows);
    CleanupKeepsTheNewest(s, rows);
    hide AfterCleanup, OnePerKey, NewestFirst;
    NothingToCleanUp(AfterCleanup(s, rows), again);
  }

  /** Two tasks that differ only in having no action and an empty action. */
  ghost predicate EmptyAndMissing(t: Task, u: Task) {
    t.assetName == u.assetName && t.wave == u.wave && t.action == None && u.action == Some("")
  }

  /** Creation compares actions exactly, cleanup takes a missing one for an empty one: on the states the
      operations reach, cleanup deletes something iff both variants of a task exist. */
  lemma CleanupDeletesIff(s: Store, rows: seq<Task>)
    requires Inv(s) && NewestFirst(rows, s.tasks)
    ensures AfterCleanup(s, rows) != s <==> exists t, u :: t in s.tasks && u in s.tasks && EmptyAndMissing(t, u)
  {
    if t, u :| t in s.tasks && u in s.tasks && EmptyAndMissing(t, u) {
      CleanupKeepsTheNewest(s, rows);
      assert CoalescedKey(t) == CoalescedKey(u);
      hide CoalescedKey, AfterCleanup;
      assert AfterCleanup(s, rows).tasks == s.tasks ==> t == u;
    }
    if forall t, u :: !(t in s.tasks && u in s.tasks && EmptyAndMissing(t, u)) {
      forall t, u | t in s.tasks && u in s.tasks && CoalescedKey(t) == CoalescedKey(u) ensures t == u {
        SameCoalescedKey(s, t, u);
      }
      hide CoalescedKey, AfterCleanup;
      NothingToCleanUp(s, rows);
    }
  }

  /** A reachable state with such a pair: the same task requested without an action and with an empty one.
      Creation keeps the two apart, and every cleanup deletes one of them. */
  lemma CleanupDeletesWhatCreationKeepsApart(p: TaskCreate, now: int, later: int, rows: seq<Task>)
    requires p.action == None
    ensures var ops := [Create(p, now), Create(p.(action := Some("")), later)];
            var s := AfterRun(EMPTY, ops);
            && LegalRun(EMPTY, ops) && |s.tasks| == 2 && EmptyAndMissing(s.tasks[0], s.tasks[1])
            && (NewestFirst(rows, s.tasks) ==> |AfterCleanup(s, rows).tasks| == 1)
  {
    var q := p.(action := Some(""));
    var a, b := Create(p, now), Create(q, later);
    var t := NewTask(EMPTY, p, now);
    var s1 := Store([t], [], 1);
    var u := NewTask(s1, q, later);
    var s2 := Store([t, u], [], 2);
    assert FindExisting([], p) == None && After(EMPTY, a) == s1;
    assert FindExisting([t], q) == None && [t] + [u] == [t, u] && After(s1, b) == s2;
    assert [a, b][1..] == [b] && [b][1..] == [];
    assert AfterRun(s2, []) == s2 && AfterRun(s1, [b]) == s2 && AfterRun(EMPTY, [a, b]) == s2;
    assert LegalRun(s1, [b]) && LegalRun(EMPTY, [a, b]);
    EmptyStoreIsSound();
    RunKeepsInv(EMPTY, [a, b]);
    assert CoalescedKey(t) == CoalescedKey(u) && t != u;
    hide AfterRun, LegalRun, After, FindExisting, NewTask, CoalescedKey;
    if NewestFirst(rows, s2.tasks) {
      OneOfTwoStays(s2, rows, t, u);
    }
  }

  lemma OneOfTwoStays(s: Store, rows: seq<Task>, t: Task, u: Task)
    requires Inv(s) && s.tasks == [t, u] && t != u && CoalescedKey(t) == CoalescedKey(u) && NewestFirst(rows, s.tasks)
    ensures |AfterCleanup(s, rows).tasks| == 1
  {
    CleanupKeepsTheNewest(s, rows);
    CleanupKeepsInv(s, rows);
    var kept := AfterCleanup(s, rows).tasks;
    hide AfterCleanup, NewestFirst, CoalescedKey, ApprovalsRefer, DecisionsInOrder, DistinctKeys;
    assert t in s.tasks;
    var v :| NewestOfKey(kept, v, t);
    assert forall w | w in kept :: CoalescedKey(w) == CoalescedKey(t) && w == v;
    AllTheSame(kept, v);
  }

  lemma AllTheSame(kept: seq<Task>, v: Task)
    requires v in kept && forall w | w in kept :: w == v
    requires forall i, j | 0 <= i < j < |kept| :: kept[i].id != kept[j].id
    ensures |kept| == 1
  {
    assert |kept| > 1 ==> kept[0].id != kept[1].id;
    forall i | 0 <= i < |kept| ensures kept[i] == v {
      assert kept[i] in kept;
    }
  }

  lemma SameCoalescedKey(s: Store, t: Task, u: Task)
    requires DistinctKeys(s) && t in s.tasks && u in s.tasks && CoalescedKey(t) == CoalescedKey(u)
    requires !EmptyAndMissing(t, u) && !EmptyAndMissing(u, t)
    ensures t == u
  {
    var i :| 0 <= i < |s.tasks| && s.tasks[i] == t;
    var j :| 0 <= j < |s.tasks| && s.tasks[j] == u;
    assert SameKey(t, u) && SameKey(u, t);
  }

  // ----- approved tasks and approval records

  ghost predicate Recorded(ds: seq<Decision>, status: Status) {
    PastApproval(status) ==> ds != [] && ds[|ds| - 1] == Approve
  }

  ghost predicate AllRecorded(s: Store) {
    forall t | t in s.tasks :: Recorded(DecisionsOf(s.approvals, t.id), t.status)
  }

  /** The generic status change is about to approve a pending task. */
  ghost predicate Bypasses(s: Store, op: Op) {
    op.Update? && op.status == Approved && exists t | t in s.tasks :: t.id == op.id && t.status == PendingApproval
  }

  lemma StepKeepsRecorded(s: Store, op: Op)
    requires Inv(s) && AllRecorded(s) && !Bypasses(s, op)
    ensures AllRecorded(After(s, op))
  {
    var s' := After(s, op);
    hide FindExisting, Find, SetStatus, TasksWithout, ApprovalsWithout, DecisionsOf, ApprovalsRefer, DecisionsInOrder, DistinctKeys;
    match op
    case Create(_, _) =>
    case Update(id, status) =>
      forall t | t in s'.tasks ensures Recorded(DecisionsOf(s'.approvals, t.id), t.status) {
        UpdatedFrom(s, id, status, t);
      }
    case Decide(a) =>
      forall t | t in s'.tasks ensures Recorded(DecisionsOf(s'.approvals, t.id), t.status) {
        OneMoreDecision(s.approvals, a, t.id);
        DecidedFrom(s, a, t);
      }
    case Cleanup(rows) =>
      TasksWithoutMembers(s.tasks, Repeats(rows));
      forall t | t in s'.tasks ensures Recorded(DecisionsOf(s'.approvals, t.id), t.status) {
        OtherDecisionsStay(s.approvals, Repeats(rows), t.id);
      }
  }

  lemma UpdatedFrom(s: Store, id: TaskId, status: Status, t: Task)
    requires DistinctIds(s) && t in AfterUpdate(s, id, status).tasks
    ensures t in s.tasks || exists u | u in s.tasks :: u.id == t.id && t.status == status && Allowed(u.status, status)
  {
    var found := Find(s.tasks, id);
    if found.Some? && Allowed(found.value.status, status) {
      var tasks' := SetStatus(s.tasks, id, status);
      var i :| 0 <= i < |tasks'| && tasks'[i] == t;
      assert s.tasks[i] in s.tasks;
      if s.tasks[i].id == id {
        OnlyOne(s, s.tasks[i], found.value);
      }
    }
  }

  lemma DecidedFrom(s: Store, a: Approval, t: Task)
    requires DistinctIds(s) && t in AfterApproval(s, a).tasks
    ensures || (t in s.tasks && (AfterApproval(s, a).approvals == s.approvals || t.id != a.taskId))
            || (t.id == a.taskId && t.status == Outcome(a.decision) && AfterApproval(s, a).approvals == s.approvals + [a])
  {
    var s' := AfterApproval(s, a);
    if s' != s {
      var i :| 0 <= i < |s'.tasks| && s'.tasks[i] == t;
      assert s.tasks[i] in s.tasks;
    }
  }

  lemma BypassBreaksRecorded(s: Store, op: Op)
    requires Inv(s) && Bypasses(s, op)
    ensures !AllRecorded(After(s, op))
  {
    var t :| t in s.tasks && t.id == op.id && t.status == PendingApproval;
    var i :| 0 <= i < |s.tasks| && s.tasks[i] == t;
    OnlyOne(s, t, Find(s.tasks, op.id).value);
    hide Find, DecisionsOf, ApprovalsRefer, DistinctKeys;
    var approved := After(s, op).tasks[i];
    assert approved in After(s, op).tasks && approved.status == Approved && approved.id == t.id;
    assert DecidedInOrder(DecisionsOf(s.approvals, t.id), PendingApproval);
  }

  /** A step leaves an approved task without an approval on record exactly when it is a generic status
      change that approves a pending task. */
  lemma StepRecordedIff(s: Store, op: Op)
    requires Inv(s) && AllRecorded(s) && Legal(s, op)
    ensures AllRecorded(After(s, op)) <==> !Bypasses(s, op)
  {
    hide *;
    if Bypasses(s, op) {
      BypassBreaksRecorded(s, op);
    } else {
      StepKeepsRecorded(s, op);
    }
  }

  /** At every moment of the run all approved tasks have their approval on record. */
  ghost predicate RecordedThroughout(s: Store, ops: seq<Op>)
    decreases |ops|
  {
    AllRecorded(s) && (ops == [] || RecordedThroughout(After(s, ops[0]), ops[1..]))
  }

  ghost predicate NeverBypasses(s: Store, ops: seq<Op>)
    decreases |ops|
  {
    ops == [] || (!Bypasses(s, ops[0]) && NeverBypasses(After(s, ops[0]), ops[1..]))
  }

  lemma {:induction false} RunRecordedIff(s: Store, ops: seq<Op>)
    requires Inv(s) && AllRecorded(s) && LegalRun(s, ops)
    ensures RecordedThroughout(s, ops) <==> NeverBypasses(s, ops)
    ensures NeverBypasses(s, ops) ==> AllRecorded(AfterRun(s, ops))
    decreases |ops|
  {
    hide Inv, After, Legal, AllRecorded, Bypasses;
    if ops != [] {
      StepKeepsInv(s, ops[0]);
      StepRecordedIff(s, ops[0]);
      if !Bypasses(s, ops[0]) {
        RunRecordedIff(After(s, ops[0]), ops[1..]);
      } else if |ops| > 1 {
        assert !RecordedThroughout(After(s, ops[0]), ops[1..]);
      }
    }
  }

  /** Over every run: an approved task has an approval on record at every moment if and only if no step
      approves a pending task through the generic status change. */
  lemma ApprovedMeansRecordedIff(ops: seq<Op>)
    requires LegalRun(EMPTY, ops)
    ensures RecordedThroughout(EMPTY, ops) <==> NeverBypasses(EMPTY, ops)
    ensures NeverBypasses(EMPTY, ops) ==> AllRecorded(AfterRun(EMPTY, ops))
  {
    EmptyStoreIsSound();
    assert AllRecorded(EMPTY);
    RunRecordedIff(EMPTY, ops);
    hide *;
  }

  ghost function OneTask(p: TaskCreate, now: int, status: Status): Store {
    Store([NewTask(EMPTY, p, now).(status := status)], [], 1)
  }

  lemma UpdateOneTask(p: TaskCreate, now: int, current: Status, wanted: Status)
    requires Allowed(current, wanted)
    ensures After(OneTask(p, now, current), Update(0, wanted)) == OneTask(p, now, wanted)
  {
    var s, s' := OneTask(p, now, current), OneTask(p, now, wanted);
    assert Find(s.tasks, 0) == Some(s.tasks[0]) && SetStatus(s.tasks, 0, wanted) == s'.tasks;
  }

  lemma RunOfThree(s: Store, a: Op, b: Op, c: Op)
    requires Legal(s, a) && Legal(After(s, a), b) && Legal(After(After(s, a), b), c)
    ensures LegalRun(s, [a, b, c]) && AfterRun(s, [a, b, c]) == After(After(After(s, a), b), c)
  {
    hide After, Legal;
    assert [a, b, c][1..] == [b, c] && [b, c][1..] == [c] && [c][1..] == [];
    var s1 := After(s, a);
    var s2 := After(s1, b);
    assert AfterRun(s2, [c]) == AfterRun(After(s2, c), []);
    assert LegalRun(s2, [c]);
  }

  /** Such a run: submit a task, set its status to approved, and nobody has decided. */
  lemma BypassLeavesNoRecord(p: TaskCreate, now: int)
    ensures var ops := [Create(p, now), Update(0, PendingApproval), Update(0, Approved)];
            LegalRun(EMPTY, ops) && !AllRecorded(AfterRun(EMPTY, ops))
  {
    assert FindExisting([], p) == None && After(EMPTY, Create(p, now)) == OneTask(p, now, Draft);
    UpdateOneTask(p, now, Draft, PendingApproval);
    UpdateOneTask(p, now, PendingApproval, Approved);
    var s := OneTask(p, now, Approved);
    assert s.tasks[0] in s.tasks && DecisionsOf([], 0) == [] && !AllRecorded(s);
    hide After, OneTask, AllRecorded;
    RunOfThree(EMPTY, Create(p, now), Update(0, PendingApproval), Update(0, Approved));
  }
}

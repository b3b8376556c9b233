/** The life of one task, over every run of the workflow store (services/workflow-service/app/repository.py). */
module WorkflowLifecycles {
  import opened Wrappers
  import opened WorkflowRuns
  import opened WorkflowStore

  /** The status of a task, if there is one with that id. */
  ghost predicate Has(s: Store, id: TaskId, status: Status) {
    exists t | t in s.tasks :: t.id == id && t.status == status
  }

  ghost predicate Exists(s: Store, id: TaskId) {
    exists t | t in s.tasks :: t.id == id
  }

  /** The six moves a task can make. */
  const MOVES: set<(Status, Status)> := {
    (Draft, PendingApproval), (PendingApproval, Approved), (PendingApproval, Rejected), (Rejected, Draft),
    (Approved, InProgress), (InProgress, Completed)}

  // ----- one step

  lemma AllowedMoves(current: Status, wanted: Status)
    ensures Allowed(current, wanted) <==> (current, wanted) in MOVES
  {
  }

  lemma UpdateMoves(s: Store, id: TaskId, status: Status, t: Task, u: Task)
    requires DistinctIds(s) && t in s.tasks && u in AfterUpdate(s, id, status).tasks && t.id == u.id
    ensures t == u || (t.id == id && u == t.(status := status) && (t.status, status) in MOVES)
  {
    var found := Find(s.tasks, id);
    if found.Some? && Allowed(found.value.status, status) {
      AllowedMoves(found.value.status, status);
      hide MOVES, Allowed;
      var i :| 0 <= i < |s.tasks| && SetStatus(s.tasks, id, status)[i] == u;
      assert s.tasks[i] in s.tasks;
      hide Find;
      OnlyOne(s, t, s.tasks[i]);
      if t.id == id {
        OnlyOne(s, t, found.value);
      }
    } else {
      OnlyOne(s, t, u);
    }
  }

  lemma DecisionMoves(s: Store, a: Approval, t: Task, u: Task)
    requires DistinctIds(s) && t in s.tasks && u in AfterApproval(s, a).tasks && t.id == u.id
    ensures t == u || (t.id == a.taskId && (u == t.(status := Approved) || u == t.(status := Rejected)) && t.status == PendingApproval)
  {
    var found := Find(s.tasks, a.taskId);
    if found.Some? && found.value.status == PendingApproval && a.approver != found.value.requestedBy {
      var i :| 0 <= i < |s.tasks| && SetStatus(s.tasks, a.taskId, Outcome(a.decision))[i] == u;
      assert s.tasks[i] in s.tasks;
      hide Find;
      OnlyOne(s, t, s.tasks[i]);
      if t.id == a.taskId {
        OnlyOne(s, t, found.value);
      }
    } else {
      OnlyOne(s, t, u);
    }
  }

  lemma CreateLeaves(s: Store, p: TaskCreate, now: int, t: Task, u: Task)
    requires DistinctIds(s) && t in s.tasks && u in AfterCreate(s, p, now).tasks && t.id == u.id
    ensures t == u
  {
    assert u in s.tasks || u.id == s.created;
    hide AfterCreate;
    if u in s.tasks {
      OnlyOne(s, t, u);
    }
  }

  lemma CleanupLeaves(s: Store, rows: seq<Task>, t: Task, u: Task)
    requires DistinctIds(s) && t in s.tasks && u in AfterCleanup(s, rows).tasks && t.id == u.id
    ensures t == u
  {
    TasksWithoutMembers(s.tasks, Repeats(rows));
    hide Repeats, TasksWithout;
    OnlyOne(s, t, u);
  }

  /** Whatever is done, a task that is still there has kept everything but its status, and that has stayed or
      made one of the six moves. */
  lemma StepMoves(s: Store, op: Op, t: Task, u: Task)
    requires Inv(s) && t in s.tasks && u in After(s, op).tasks && t.id == u.id
    ensures u == t.(status := u.status) && (u.status == t.status || (t.status, u.status) in MOVES)
  {
    hide AfterCreate, AfterUpdate, AfterApproval, AfterCleanup;
    match op
    case Create(payload, now) => CreateLeaves(s, payload, now, t, u);
    case Update(id, status) => UpdateMoves(s, id, status, t, u);
    case Decide(approval) => DecisionMoves(s, approval, t, u);
    case Cleanup(rows) => CleanupLeaves(s, rows, t, u);
  }

  /** And each of the six moves can be made by the generic status change. */
  lemma EveryMoveIsPossible(s: Store, t: Task, status: Status)
    requires Inv(s) && t in s.tasks && (t.status, status) in MOVES
    ensures t.(status := status) in After(s, Update(t.id, status)).tasks
  {
    var found := Find(s.tasks, t.id);
    OnlyOne(s, t, found.value);
    var i :| 0 <= i < |s.tasks| && s.tasks[i] == t;
    AllowedMoves(t.status, status);
    hide Find, Allowed, MOVES;
    assert SetStatus(s.tasks, t.id, status)[i] == t.(status := status);
  }

  // ----- back from a rejection

  /** The stores of a run from `s`, the first and the last included. */
  ghost predicate Passes(s: Store, ops: seq<Op>, id: TaskId, status: Status)
    decreases |ops|
  {
    Has(s, id, status) || (ops != [] && Passes(After(s, ops[0]), ops[1..], id, status))
  }

  lemma IdsOnlyOnce(s: Store, ops: seq<Op>, id: TaskId)
    requires Inv(s) && LegalRun(s, ops) && id < s.created && !Exists(s, id)
    ensures !Exists(AfterRun(s, ops), id)
    decreases |ops|
  {
    if ops != [] {
      StepKeepsInv(s, ops[0]);
      GoneForGood(s, ops[0], id);
      IdsOnlyOnce(After(s, ops[0]), ops[1..], id);
    }
  }

  lemma GoneForGood(s: Store, op: Op, id: TaskId)
    requires Inv(s) && id < s.created && !Exists(s, id)
    ensures !Exists(After(s, op), id) && id < After(s, op).created
  {
    hide FindExisting, Find, Repeats, TasksWithout;
    match op
    case Create(payload, now) =>
    case Update(other, status) =>
      forall t | t in After(s, op).tasks ensures t.id != id {
        var i :| 0 <= i < |s.tasks| && After(s, op).tasks[i] == t;
        assert s.tasks[i] in s.tasks;
      }
    case Decide(approval) =>
      forall t | t in After(s, op).tasks ensures t.id != id {
        var i :| 0 <= i < |s.tasks| && After(s, op).tasks[i] == t;
        assert s.tasks[i] in s.tasks;
      }
    case Cleanup(rows) => TasksWithoutMembers(s.tasks, Repeats(rows));
  }

  lemma OneStatus(s: Store, id: TaskId, a: Status, b: Status)
    requires Inv(s) && Has(s, id, a) && Has(s, id, b)
    ensures a == b
  {
    var t :| t in s.tasks && t.id == id && t.status == a;
    var u :| u in s.tasks && u.id == id && u.status == b;
    OnlyOne(s, t, u);
  }

  /** One step from a rejection: still rejected, a draft, or gone for good. */
  lemma StepFromRejected(s: Store, op: Op, id: TaskId)
    requires Inv(s) && Has(s, id, Rejected)
    ensures var next := After(s, op);
            Has(next, id, Rejected) || Has(next, id, Draft) || (!Exists(next, id) && id < next.created)
  {
    var t :| t in s.tasks && t.id == id && t.status == Rejected;
    var next := After(s, op);
    assert t.id < s.created;
    hide *;
    CreatedGrows(s, op);
    if Exists(next, id) {
      var u := Existing(next, id);
      StepMoves(s, op, t, u);
      if u.status != Rejected {
        FromRejected(u.status);
      }
      IsHad(next, u);
    }
  }

  lemma Existing(s: Store, id: TaskId) returns (t: Task)
    requires Exists(s, id)
    ensures t in s.tasks && t.id == id
  {
    t :| t in s.tasks && t.id == id;
  }

  lemma IsHad(s: Store, t: Task)
    requires t in s.tasks
    ensures Has(s, t.id, t.status)
  {
  }

  lemma FromRejected(status: Status)
    requires (Rejected, status) in MOVES
    ensures status == Draft
  {
  }

  lemma HasExists(s: Store, id: TaskId, status: Status)
    requires Has(s, id, status)
    ensures Exists(s, id)
  {
  }

  lemma RunStep(s: Store, ops: seq<Op>)
    requires ops != []
    ensures AfterRun(s, ops) == AfterRun(After(s, ops[0]), ops[1..])
    ensures LegalRun(s, ops) <==> Legal(s, ops[0]) && LegalRun(After(s, ops[0]), ops[1..])
  {
    hide After, Legal;
  }

  lemma PassesStep(s: Store, ops: seq<Op>, id: TaskId, status: Status)
    ensures Has(s, id, status) ==> Passes(s, ops, id, status)
    ensures ops != [] && Passes(After(s, ops[0]), ops[1..], id, status) ==> Passes(s, ops, id, status)
  {
    hide After, Has;
  }

  /** A rejected task that is pending at the end of a run has been a draft in between. */
  lemma {:induction false} RejectedReturnsThroughDraft(s: Store, ops: seq<Op>, id: TaskId)
    requires Inv(s) && LegalRun(s, ops) && Has(s, id, Rejected) && Has(AfterRun(s, ops), id, PendingApproval)
    ensures Passes(s, ops, id, Draft)
    decreases |ops|
  {
    assert ops == [] ==> AfterRun(s, ops) == s;
    hide *;
    if ops == [] {
      OneStatus(s, id, Rejected, PendingApproval);
    } else {
      var next := After(s, ops[0]);
      RunStep(s, ops);
      StepKeepsInv(s, ops[0]);
      StepFromRejected(s, ops[0], id);
      PassesStep(s, ops, id, Draft);
      if Has(next, id, Draft) {
        PassesStep(next, ops[1..], id, Draft);
      } else if Has(next, id, Rejected) {
        RejectedReturnsThroughDraft(next, ops[1..], id);
      } else {
        IdsOnlyOnce(next, ops[1..], id);
        HasExists(AfterRun(next, ops[1..]), id, PendingApproval);
      }
    }
  }

  lemma CreatedGrows(s: Store, op: Op)
    ensures s.created <= After(s, op).created
  {
    hide FindExisting, Find, Repeats;
  }

  // ----- a whole life

  /** Created, asked for, rejected, revised, asked for again, approved, worked on and completed. */
  function WholeLife(p: TaskCreate, now: int, approver: string): seq<Op> {
    [Create(p, now), Update(0, PendingApproval), Decide(Approval(0, approver, Reject, None)), Update(0, Draft), Update(0, PendingApproval),
     Decide(Approval(0, approver, Approve, None)), Update(0, InProgress), Update(0, Completed)]
  }

  ghost function OneTask(p: TaskCreate, now: int, status: Status, approvals: seq<Approval>): Store {
    Store([Task(0, p.assetName, p.wave, p.action, p.requestedBy, status, now)], approvals, 1)
  }

  lemma WholeLifeIsPossible(p: TaskCreate, now: int, approver: string)
    requires approver != p.requestedBy
    ensures AfterRun(EMPTY, WholeLife(p, now, approver)) ==
            OneTask(p, now, Completed, [Approval(0, approver, Reject, None), Approval(0, approver, Approve, None)])
  {
    var ops, no, yes := WholeLife(p, now, approver), Approval(0, approver, Reject, None), Approval(0, approver, Approve, None);
    assert ops[8..] == [] && |ops| == 8;
    assert AfterRun(OneTask(p, now, Completed, [no, yes]), []) == OneTask(p, now, Completed, [no, yes]);
    UntilRejected(p, now, approver);
    UntilApproved(p, now, approver);
    hide After, AfterRun, OneTask;
    MoveAt(p, now, Approved, [no, yes], ops, 6, InProgress);
    MoveAt(p, now, InProgress, [no, yes], ops, 7, Completed);
  }

  lemma UntilApproved(p: TaskCreate, now: int, approver: string)
    requires approver != p.requestedBy
    ensures var ops, no, yes := WholeLife(p, now, approver), Approval(0, approver, Reject, None), Approval(0, approver, Approve, None);
            AfterRun(OneTask(p, now, Rejected, [no]), ops[3..]) == AfterRun(OneTask(p, now, Approved, [no, yes]), ops[6..])
  {
    var ops, no, yes := WholeLife(p, now, approver), Approval(0, approver, Reject, None), Approval(0, approver, Approve, None);
    assert [no] + [yes] == [no, yes];
    hide After, AfterRun, OneTask;
    MoveAt(p, now, Rejected, [no], ops, 3, Draft);
    MoveAt(p, now, Draft, [no], ops, 4, PendingApproval);
    DecideAt(p, now, [no], ops, 5, yes);
  }

  lemma UntilRejected(p: TaskCreate, now: int, approver: string)
    requires approver != p.requestedBy
    ensures var ops, no := WholeLife(p, now, approver), Approval(0, approver, Reject, None);
            AfterRun(EMPTY, ops) == AfterRun(OneTask(p, now, Rejected, [no]), ops[3..])
  {
    var ops, no := WholeLife(p, now, approver), Approval(0, approver, Reject, None);
    assert ops[0..] == ops;
    assert After(EMPTY, ops[0]) == OneTask(p, now, Draft, []);
    assert [] + [no] == [no];
    hide After, AfterRun, OneTask;
    StepAt(EMPTY, ops, 0);
    MoveAt(p, now, Draft, [], ops, 1, PendingApproval);
    DecideAt(p, now, [], ops, 2, no);
  }

  lemma StepAt(s: Store, ops: seq<Op>, k: nat)
    requires k < |ops|
    ensures AfterRun(s, ops[k..]) == AfterRun(After(s, ops[k]), ops[k + 1..])
  {
    assert ops[k..][1..] == ops[k + 1..];
    hide After;
  }

  lemma MoveAt(p: TaskCreate, now: int, current: Status, approvals: seq<Approval>, ops: seq<Op>, k: nat, wanted: Status)
    requires k < |ops| && ops[k] == Update(0, wanted) && (current, wanted) in MOVES
    ensures AfterRun(OneTask(p, now, current, approvals), ops[k..]) == AfterRun(OneTask(p, now, wanted, approvals), ops[k + 1..])
  {
    StepAt(OneTask(p, now, current, approvals), ops, k);
    assert After(OneTask(p, now, current, approvals), Update(0, wanted)) == OneTask(p, now, wanted, approvals) by { hide AfterRun; }
    hide After, OneTask;
  }

  lemma DecideAt(p: TaskCreate, now: int, approvals: seq<Approval>, ops: seq<Op>, k: nat, a: Approval)
    requires k < |ops| && ops[k] == Decide(a) && a.taskId == 0 && a.approver != p.requestedBy
    ensures AfterRun(OneTask(p, now, PendingApproval, approvals), ops[k..])
            == AfterRun(OneTask(p, now, if a.decision == Approve then Approved else Rejected, approvals + [a]), ops[k + 1..])
  {
    StepAt(OneTask(p, now, PendingApproval, approvals), ops, k);
    assert After(OneTask(p, now, PendingApproval, approvals), Decide(a))
           == OneTask(p, now, if a.decision == Approve then Approved else Rejected, approvals + [a]) by { hide AfterRun; }
    hide After, OneTask;
  }
}

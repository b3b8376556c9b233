/** The repository object: it inserts, updates and deletes rows of its two tables
    (services/workflow-service/app/repository.py). */
module WorkflowRepositories {
  import opened Wrappers
  import opened WorkflowStore

  /** The row of `id` has the given status, and nothing else has changed. */
  ghost predicate OnlyStatusOf(before: seq<Task>, after: seq<Task>, id: TaskId, status: Status) {
    |after| == |before| && forall i | 0 <= i < |after| :: after[i] == if before[i].id == id then before[i].(status := status) else before[i]
  }

  class WorkflowRepository {
    var tasks: seq<Task>
    var approvals: seq<Approval>
    var created: nat

    ghost function Value(): Store
      reads this
    {
      Store(tasks, approvals, created)
    }

    constructor ()
      ensures Value() == EMPTY
    {
      tasks, approvals, created := [], [], 0;
    }

    method CreateTask(payload: TaskCreate, now: int) returns (task: Task)
      modifies this
      ensures Value() == AfterCreate(old(Value()), payload, now)
      ensures task in tasks && task.assetName == payload.assetName && task.wave == payload.wave && task.action == payload.action
      ensures (exists t | t in old(tasks) :: t.assetName == payload.assetName && t.wave == payload.wave && t.action == payload.action) ==>
                tasks == old(tasks) && forall t | t in tasks && t.assetName == payload.assetName && t.wave == payload.wave && t.action == payload.action ::
                  t.createdAt <= task.createdAt
      ensures !(exists t | t in old(tasks) :: t.assetName == payload.assetName && t.wave == payload.wave && t.action == payload.action) ==>
                && tasks == old(tasks) + [task] && task.id == old(created) && created == old(created) + 1
                && task.requestedBy == payload.requestedBy && task.status == Draft && task.createdAt == now
    {
      hide FindExisting;
      var existing := FindExisting(tasks, payload);
      if existing.Some? {
        return existing.value;
      }
      task := Task(created, payload.assetName, payload.wave, payload.action, payload.requestedBy, Draft, now);
      tasks := tasks + [task];
      created := created + 1;
    }

    method UpdateTaskStatus(id: TaskId, status: Status) returns (r: Result<Option<Task>, Error>)
      modifies this
      ensures Value() == AfterUpdate(old(Value()), id, status)
      ensures var task := Find(old(tasks), id);
              r == if task.None? then Ok(None)
                   else if Allowed(task.value.status, status) then Ok(Find(tasks, id))
                   else Err(InvalidTransition(task.value.status, status))
      ensures r.Err? || r.value == None ==> tasks == old(tasks) && approvals == old(approvals)
      ensures r.Ok? && r.value.Some? ==> r.value.value.id == id && r.value.value.status == status && OnlyStatusOf(old(tasks), tasks, id, status)
    {
      hide Find;
      var task := Find(tasks, id);
      if task.None? {
        return Ok(None);
      }
      if !Allowed(task.value.status, status) {
        return Err(InvalidTransition(task.value.status, status));
      }
      tasks := SetStatus(tasks, id, status);
      return Ok(Find(tasks, id));
    }

    method CreateApproval(taskId: TaskId, approver: string, decision: Decision, note: Option<string>) returns (r: Result<Option<Approval>, Error>)
      modifies this
      ensures Value() == AfterApproval(old(Value()), Approval(taskId, approver, decision, note))
      ensures var task := Find(old(tasks), taskId);
              r == if task.None? then Ok(None)
                   else if task.value.status != PendingApproval then Err(NotPending)
                   else if approver == task.value.requestedBy then Err(SamePerson)
                   else Ok(Some(Approval(taskId, approver, decision, note)))
      ensures r.Err? || r.value == None ==> tasks == old(tasks) && approvals == old(approvals)
      ensures r.Ok? && r.value.Some? ==>
                && approvals == old(approvals) + [r.value.value]
                && OnlyStatusOf(old(tasks), tasks, taskId, match decision case Approve => Approved case Reject => Rejected)
    {
      hide Find;
      var task := Find(tasks, taskId);
      if task.None? {
        return Ok(None);
      }
      if task.value.status != PendingApproval {
        return Err(NotPending);
      }
      if approver == task.value.requestedBy {
        return Err(SamePerson);
      }
      var approval := Approval(taskId, approver, decision, note);
      approvals := approvals + [approval];
      var _ := UpdateTaskStatus(taskId, if decision == Approve then Approved else Rejected);
      return Ok(Some(approval));
    }

    /** Everything with one of `ids` is gone since `before`, and the counts say how much that was. */
    ghost predicate Deleted(before: Store, ids: seq<TaskId>, deletedTasks: nat, deletedApprovals: nat)
      reads this
    {
      && tasks == TasksWithout(before.tasks, ids) && approvals == ApprovalsWithout(before.approvals, ids) && created == before.created
      && deletedTasks == |before.tasks| - |tasks| && deletedApprovals == |before.approvals| - |approvals|
    }

    lemma NothingDeleted(before: Store)
      requires Value() == before
      ensures Deleted(before, [], 0, 0)
    {
      TasksWithoutNothing(tasks);
      ApprovalsWithoutNothing(approvals);
    }

    lemma AllDeleted(before: Store, ids: seq<TaskId>, deletedTasks: nat, deletedApprovals: nat)
      requires Deleted(before, ids, deletedTasks, deletedApprovals)
      ensures tasks == TasksWithout(before.tasks, ids) && approvals == ApprovalsWithout(before.approvals, ids) && created == before.created
      ensures deletedTasks == |before.tasks| - |tasks| && deletedApprovals == |before.approvals| - |approvals|
    {
    }

    /** `DELETE` from both tables for one id; the numbers of rows deleted. */
    method DeleteTask(id: TaskId, ghost before: Store, ghost ids: seq<TaskId>, ghost dt: nat, ghost da: nat)
      returns (deletedApprovals: nat, deletedTasks: nat)
      requires Deleted(before, ids, dt, da)
      modifies this
      ensures Deleted(before, ids + [id], dt + deletedTasks, da + deletedApprovals)
    {
      TasksWithoutOneMore(before.tasks, ids, id);
      ApprovalsWithoutOneMore(before.approvals, ids, id);
      TasksWithoutIsShorter(tasks, [id]);
      ApprovalsWithoutIsShorter(approvals, [id]);
      hide TasksWithout, ApprovalsWithout;
      var keptApprovals, keptTasks := ApprovalsWithout(approvals, [id]), TasksWithout(tasks, [id]);
      deletedApprovals, deletedTasks := |approvals| - |keptApprovals|, |tasks| - |keptTasks|;
      approvals, tasks := keptApprovals, keptTasks;
    }

    /** `rows` is the answer of the database to the query for all tasks, newest first. */
    method CleanupDuplicateTasks(rows: seq<Task>) returns (deletedTasks: nat, deletedApprovals: nat)
      requires NewestFirst(rows, tasks)
      modifies this
      ensures Value() == AfterCleanup(old(Value()), rows)
      ensures deletedTasks == |old(tasks)| - |tasks| && deletedApprovals == |old(approvals)| - |approvals|
    {
      var deleteIds := CollectRepeats(rows);
      deletedApprovals, deletedTasks := 0, 0;
      ghost var before := Value();
      NothingDeleted(before);
      hide TasksWithout, ApprovalsWithout, Repeats, NewestFirst;
      hide Deleted;
      for i := 0 to |deleteIds|
        invariant Deleted(before, deleteIds[..i], deletedTasks, deletedApprovals)
      {
        assert deleteIds[..i + 1] == deleteIds[..i] + [deleteIds[i]];
        var fewerApprovals, fewerTasks := DeleteTask(deleteIds[i], before, deleteIds[..i], deletedTasks, deletedApprovals);
        deletedApprovals := deletedApprovals + fewerApprovals;
        deletedTasks := deletedTasks + fewerTasks;
      }
      assert deleteIds[..|deleteIds|] == deleteIds;
      AllDeleted(before, deleteIds, deletedTasks, deletedApprovals);
    }
  }

  method CollectRepeats(rows: seq<Task>) returns (deleteIds: seq<TaskId>)
    ensures deleteIds == Repeats(rows)
  {
    var seen: set<(string, string, string)> := {};
    deleteIds := [];
    for i := 0 to |rows|
      invariant seen == Keys(rows[..i]) && deleteIds == Repeats(rows[..i])
    {
      assert rows[..i + 1][..i] == rows[..i] && rows[..i + 1] == rows[..i] + [rows[i]];
      var key := CoalescedKey(rows[i]);
      if key in seen {
        deleteIds := deleteIds + [rows[i].id];
      } else {
        seen := seen + {key};
      }
    }
    assert rows[..|rows|] == rows;
  }

  lemma {:induction false} TasksWithoutOneMore(tasks: seq<Task>, ids: seq<TaskId>, id: TaskId)
    ensures TasksWithout(TasksWithout(tasks, ids), [id]) == TasksWithout(tasks, ids + [id])
  {
    if tasks != [] {
      var front, last := tasks[..|tasks| - 1], tasks[|tasks| - 1];
      TasksWithoutOneMore(front, ids, id);
      var kept := TasksWithout(front, ids);
      assert (kept + [last])[..|kept|] == kept;
    }
  }

  lemma {:induction false} ApprovalsWithoutOneMore(approvals: seq<Approval>, ids: seq<TaskId>, id: TaskId)
    ensures ApprovalsWithout(ApprovalsWithout(approvals, ids), [id]) == ApprovalsWithout(approvals, ids + [id])
  {
    if approvals != [] {
      var front, last := approvals[..|approvals| - 1], approvals[|approvals| - 1];
      ApprovalsWithoutOneMore(front, ids, id);
      var kept := ApprovalsWithout(front, ids);
      assert (kept + [last])[..|kept|] == kept;
    }
  }

  lemma {:induction false} TasksWithoutIsShorter(tasks: seq<Task>, ids: seq<TaskId>)
    ensures |TasksWithout(tasks, ids)| <= |tasks|
  {
    if tasks != [] {
      TasksWithoutIsShorter(tasks[..|tasks| - 1], ids);
    }
  }

  lemma {:induction false} ApprovalsWithoutIsShorter(approvals: seq<Approval>, ids: seq<TaskId>)
    ensures |ApprovalsWithout(approvals, ids)| <= |approvals|
  {
    if approvals != [] {
      ApprovalsWithoutIsShorter(approvals[..|approvals| - 1], ids);
    }
  }
}

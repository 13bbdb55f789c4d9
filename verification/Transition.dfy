/** The status tables of tasks, runs and operations, and the records they guard. */
module Transition {
  import opened Prelude
  import opened Model

  datatype RunStatus = Pending | Running | Suspended | Completed | Failed | Cancelled | NeedsAttention

  predicate TaskTransitionAllowed(from: TaskStatus, to: TaskStatus) {
    match from
    case Planned => to.InProgress? || to.Cancelled?
    case InProgress => to.Blocked? || to.Completed? || to.Cancelled?
    case Blocked => to.InProgress? || to.Cancelled?
    case Completed => false
    case Cancelled => false
  }

  predicate RunTransitionAllowed(from: RunStatus, to: RunStatus) {
    match from
    case Pending => to.Running? || to.Cancelled? || to.NeedsAttention?
    case Running => to.Suspended? || to.Completed? || to.Failed? || to.NeedsAttention?
    case Suspended => to.Running? || to.Completed? || to.Cancelled? || to.NeedsAttention?
    case NeedsAttention => to.Running? || to.Cancelled?
    case Completed => false
    case Failed => false
    case Cancelled => false
  }

  predicate OperationTransitionAllowed(from: OperationStatus, to: OperationStatus) {
    match from
    case Planned => to.Authorized? || to.Failed?
    case Authorized => to.Started? || to.Failed?
    case Started => to.Succeeded? || to.Failed? || to.Unknown?
    case Unknown => to.Succeeded? || to.Failed? || to.Disputed?
    case Succeeded => to.Verified? || to.Disputed?
    case Failed => to.Disputed?
    case Verified => false
    case Disputed => false
  }

  function TransitionTask(t: Task, next: TaskStatus): Option<Task> {
    if TaskTransitionAllowed(t.status, next) then Some(t.(status := next)) else None
  }

  function TransitionOperation(o: Operation, next: OperationStatus): Option<Operation> {
    if OperationTransitionAllowed(o.status, next) then Some(o.(status := next)) else None
  }

  // ---------------------------------------------------------------- records changed in place

  class TaskRecord {
    var task: Task

    constructor (task: Task)
      ensures this.task == task
    {
      this.task := task;
    }

    /** Moves the task on, or refuses and leaves it as it was. */
    method Transition(next: TaskStatus) returns (ok: bool)
      modifies this
      ensures ok <==> TransitionTask(old(task), next).Some?
      ensures task == if ok then TransitionTask(old(task), next).value else old(task)
    {
      var allowed :=
        match (task.status, next)
        case (Planned, InProgress) => true
        case (Planned, Cancelled) => true
        case (InProgress, Blocked) => true
        case (InProgress, Completed) => true
        case (InProgress, Cancelled) => true
        case (Blocked, InProgress) => true
        case (Blocked, Cancelled) => true
        case _ => false;
      if !allowed {
        return false;
      }
      task := task.(status := next);
      return true;
    }
  }

  class OperationRecord {
    var operation: Operation

    constructor (operation: Operation)
      ensures this.operation == operation
    {
      this.operation := operation;
    }

    /** Moves the operation on, or refuses and leaves it as it was. */
    method Transition(next: OperationStatus) returns (ok: bool)
      modifies this
      ensures ok <==> TransitionOperation(old(operation), next).Some?
      ensures operation == if ok then TransitionOperation(old(operation), next).value else old(operation)
      ensures ok ==> Stage(old(operation).status) < Stage(operation.status)
    {
      var allowed :=
        match (operation.status, next)
        case (Planned, Authorized) => true
        case (Planned, Failed) => true
        case (Authorized, Started) => true
        case (Authorized, Failed) => true
        case (Started, Succeeded) => true
        case (Started, Failed) => true
        case (Started, Unknown) => true
        case (Unknown, Succeeded) => true
        case (Unknown, Failed) => true
        case (Unknown, Disputed) => true
        case (Succeeded, Verified) => true
        case (Succeeded, Disputed) => true
        case (Failed, Disputed) => true
        case _ => false;
      if !allowed {
        return false;
      }
      operation := operation.(status := next);
      return true;
    }
  }

  // ---------------------------------------------------------------- whole lives

  /** How far an operation has come; every allowed transition moves it on. */
  function Stage(s: OperationStatus): nat {
    match s
    case Planned => 0
    case Authorized => 1
    case Started => 2
    case Unknown => 3
    case Succeeded => 4
    case Failed => 4
    case Verified => 5
    case Disputed => 5
  }

  ghost predicate OperationPath(path: seq<OperationStatus>) {
    forall i | 0 <= i < |path| - 1 :: OperationTransitionAllowed(path[i], path[i + 1])
  }

  lemma {:induction false} StagesGrow(path: seq<OperationStatus>, i: nat, j: nat)
    requires OperationPath(path) && i < j < |path|
    ensures Stage(path[i]) + (j - i) <= Stage(path[j])
    decreases j
  {
    assert OperationTransitionAllowed(path[j - 1], path[j - 1 + 1]);
    if i < j - 1 {
      StagesGrow(path, i, j - 1);
    }
  }

  /** No operation returns to a status it left, and its life has at most five transitions. */
  lemma OperationLife(path: seq<OperationStatus>)
    requires OperationPath(path)
    ensures Distinct(path) && |path| <= 6
  {
    forall i, j | 0 <= i < j < |path| ensures path[i] != path[j] {
      StagesGrow(path, i, j);
    }
    if |path| > 1 { StagesGrow(path, 0, |path| - 1); }
  }

  /** A task that was completed was in progress just before, and is never moved again;
      the same holds of a run, which may also have been suspended. */
  lemma CompletionIsFinal(task: TaskStatus, next: TaskStatus, run: RunStatus, after: RunStatus)
    ensures next.Completed? && TaskTransitionAllowed(task, next) ==> task.InProgress?
    ensures task.Completed? || task.Cancelled? <==> forall t :: !TaskTransitionAllowed(task, t)
    ensures after.Completed? && RunTransitionAllowed(run, after) ==> run.Running? || run.Suspended?
    ensures run.Completed? || run.Failed? || run.Cancelled? <==> forall t :: !RunTransitionAllowed(run, t)
  {
    assert TaskTransitionAllowed(TaskStatus.Planned, TaskStatus.InProgress);
    assert TaskTransitionAllowed(TaskStatus.InProgress, TaskStatus.Completed);
    assert TaskTransitionAllowed(TaskStatus.Blocked, TaskStatus.InProgress);
    assert RunTransitionAllowed(RunStatus.Pending, RunStatus.Running);
    assert RunTransitionAllowed(RunStatus.Running, RunStatus.Failed);
    assert RunTransitionAllowed(RunStatus.Suspended, RunStatus.Running);
    assert RunTransitionAllowed(RunStatus.NeedsAttention, RunStatus.Running);
  }
}

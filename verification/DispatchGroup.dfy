/** Task groups: an array of tasks filled in order, and performing them in the caller's thread. */
module DispatchGroup {

  class Task {
    const callee: nat    // which function
    const argument: nat     // with which argument
    var waitable: bool

    constructor (callee: nat, argument: nat, waitable: bool)
      ensures this.callee == callee && this.argument == argument && this.waitable == waitable
    {
      this.callee, this.argument, this.waitable := callee, argument, waitable;
    }
  }

  /** One call of a task's function. */
  datatype Call = Call(callee: nat, argument: nat)

  function Calls(tasks: seq<Task>): seq<Call> {
    seq(|tasks|, i requires 0 <= i < |tasks| => Call(tasks[i].callee, tasks[i].argument))
  }

  class Group {
    const length: nat
    var count: nat
    var waitable: bool
    var tasks: array<Task?>

    ghost predicate Valid()
      reads this, tasks
    {
      tasks.Length == length && count <= length && forall i :: 0 <= i < count ==> tasks[i] != null
    }

    ghost function Tasks(): (r: seq<Task>)
      requires Valid()
      reads this, tasks
      ensures |r| == count
    {
      seq(count, i requires 0 <= i < count && Valid() reads this, tasks => tasks[i])
    }

    /** dispatch_group_create. */
    constructor (length: nat, waitable: bool)
      ensures Valid() && fresh(tasks) && this.length == length && this.waitable == waitable && Tasks() == []
    {
      this.length, this.waitable, count := length, waitable, 0;
      tasks := new Task?[length](_ => null);
    }

    /** dispatch_group_init: empties the group for reuse. */
    method Init(waitable: bool)
      requires Valid()
      modifies this`waitable, this`count
      ensures Valid() && this.waitable == waitable && Tasks() == []
    {
      this.waitable, count := waitable, 0;
    }

    /** dispatch_group_task_add: the group decides whether its tasks can be waited on. */
    method TaskAdd(task: Task)
      requires Valid() && count < length
      modifies this`count, tasks, task`waitable
      ensures Valid() && tasks == old(tasks)
      ensures Tasks() == old(Tasks()) + [task] && task.waitable == waitable
    {
      task.waitable := waitable;
      tasks[count] := task;
      count := count + 1;
    }

    /** dispatch_group_function_add. */
    method FunctionAdd(callee: nat, argument: nat) returns (task: Task)
      requires Valid() && count < length
      modifies this`count, tasks
      ensures Valid() && tasks == old(tasks) && fresh(task)
      ensures Tasks() == old(Tasks()) + [task] && task.waitable == waitable
      ensures Calls(Tasks()) == old(Calls(Tasks())) + [Call(callee, argument)]
    {
      task := new Task(callee, argument, waitable);
      TaskAdd(task);
    }

    /** dispatch_group_perform: calls each task's function once, in the order the tasks were added. */
    method Perform(log: seq<Call>) returns (log': seq<Call>)
      requires Valid()
      ensures log' == log + Calls(Tasks())
    {
      log' := log;
      for i := 0 to count
        invariant log' == log + Calls(Tasks())[..i]
      {
        var task := tasks[i];
        log' := log' + [Call(task.callee, task.argument)];
      }
    }
  }
}

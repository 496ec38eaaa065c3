/** The coordinator: it hands out map tasks, then reduce tasks, and issues a task again
    when its worker is late. */
module MrCoordinator {

  datatype TaskState = Idle | InProgress | Done

  datatype TaskInfo = TaskInfo(state: TaskState, startTime: int)

  const TASK_TIMEOUT := 10

  datatype Kind = MapTask | ReduceTask

  datatype Reply = Assigned(kind: Kind, id: nat) | NoTask | Exit

  datatype Tasks = Tasks(maps: seq<TaskInfo>, reduces: seq<TaskInfo>, mapDone: nat, reduceDone: nat)

  function Fresh(nMap: nat, nReduce: nat): Tasks {
    Tasks(seq(nMap, _ => TaskInfo(Idle, 0)), seq(nReduce, _ => TaskInfo(Idle, 0)), 0, 0)
  }

  /** A task that may be handed out: nobody has it, or its worker is late. */
  predicate Open(t: TaskInfo, now: int) {
    t.state == Idle || (t.state == InProgress && now - t.startTime > TASK_TIMEOUT)
  }

  /** The first open task, or the number of tasks. */
  function FirstOpen(ts: seq<TaskInfo>, now: int): (i: nat)
    ensures i <= |ts| && (i < |ts| ==> Open(ts[i], now)) && forall j :: 0 <= j < i ==> !Open(ts[j], now)
  {
    if ts == [] then 0
    else
      var i := FirstOpen(ts[..|ts| - 1], now);
      if i < |ts| - 1 || Open(ts[|ts| - 1], now) then i else |ts|
  }

  function Request(c: Tasks, now: int): (Tasks, Reply) {
    if c.mapDone < |c.maps| then
      var i := FirstOpen(c.maps, now);
      if i < |c.maps| then (c.(maps := c.maps[i := TaskInfo(InProgress, now)]), Assigned(MapTask, i)) else (c, NoTask)
    else if c.reduceDone < |c.reduces| then
      var i := FirstOpen(c.reduces, now);
      if i < |c.reduces| then (c.(reduces := c.reduces[i := TaskInfo(InProgress, now)]), Assigned(ReduceTask, i))
      else (c, NoTask)
    else (c, Exit)
  }

  function Report(c: Tasks, kind: Kind, id: nat): Tasks
    requires id < if kind == MapTask then |c.maps| else |c.reduces|
  {
    match kind
    case MapTask =>
      if c.maps[id].state == Done then c
      else c.(maps := c.maps[id := c.maps[id].(state := Done)], mapDone := c.mapDone + 1)
    case ReduceTask =>
      if c.reduces[id].state == Done then c
      else c.(reduces := c.reduces[id := c.reduces[id].(state := Done)], reduceDone := c.reduceDone + 1)
  }

  class Coordinator {
    const nMap: nat
    const nReduce: nat
    const mapTasks: array<TaskInfo>
    const reduceTasks: array<TaskInfo>
    var mapDone: nat
    var reduceDone: nat

    ghost predicate Valid() {
      mapTasks != reduceTasks && mapTasks.Length == nMap && reduceTasks.Length == nReduce
    }

    ghost function Value(): Tasks
      reads this, mapTasks, reduceTasks
    {
      Tasks(mapTasks[..], reduceTasks[..], mapDone, reduceDone)
    }

    constructor (nMap: nat, nReduce: nat)
      ensures Valid() && Value() == Fresh(nMap, nReduce) && fresh(mapTasks) && fresh(reduceTasks)
    {
      this.nMap, this.nReduce := nMap, nReduce;
      mapTasks := new TaskInfo[nMap](_ => TaskInfo(Idle, 0));
      reduceTasks := new TaskInfo[nReduce](_ => TaskInfo(Idle, 0));
      mapDone, reduceDone := 0, 0;
    }

    /** Mark the first open task as in progress. */
    static method Issue(tasks: array<TaskInfo>, now: int) returns (i: nat)
      modifies tasks
      ensures i == FirstOpen(old(tasks[..]), now)
      ensures tasks[..] == if i < tasks.Length then old(tasks[..])[i := TaskInfo(InProgress, now)] else old(tasks[..])
    {
      i := 0;
      while i < tasks.Length
        invariant i <= tasks.Length && tasks[..] == old(tasks[..])
        invariant forall j :: 0 <= j < i ==> !Open(tasks[..][j], now)
      {
        var t := tasks[i];
        if t.state == Idle || (t.state == InProgress && now - t.startTime > TASK_TIMEOUT) {
          assert Open(tasks[..][i], now);
          tasks[i] := TaskInfo(InProgress, now);
          return;
        }
        i := i + 1;
      }
    }

    method RequestTask(now: int) returns (reply: Reply)
      requires Valid()
      modifies mapTasks, reduceTasks
      ensures (Value(), reply) == Request(old(Value()), now)
    {
      if mapDone < nMap {
        var i := Issue(mapTasks, now);
        return if i < nMap then Assigned(MapTask, i) else NoTask;
      }
      if reduceDone < nReduce {
        var i := Issue(reduceTasks, now);
        return if i < nReduce then Assigned(ReduceTask, i) else NoTask;
      }
      return Exit;
    }

    method ReportTask(kind: Kind, id: nat)
      requires Valid() && id < if kind == MapTask then nMap else nReduce
      modifies this, mapTasks, reduceTasks
      ensures Value() == Report(old(Value()), kind, id)
    {
      match kind {
        case MapTask =>
          if mapTasks[id].state != Done {
            mapTasks[id] := mapTasks[id].(state := Done);
            mapDone := mapDone + 1;
          }
        case ReduceTask =>
          if reduceTasks[id].state != Done {
            reduceTasks[id] := reduceTasks[id].(state := Done);
            reduceDone := reduceDone + 1;
          }
      }
    }

    method IsDone() returns (done: bool)
      requires Valid()
      ensures done <==> Value().reduceDone == |Value().reduces|
    {
      return reduceDone == nReduce;
    }
  }
}

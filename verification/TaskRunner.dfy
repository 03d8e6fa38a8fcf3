/** The task registry, the batch runner over it and the team report. */
module TaskRunner {
  import opened Prelude

  datatype TaskStatus = Created | Running | Completed | Failed | Stopped

  /** A task is identified by the serial number of its id, which is never reused. */
  type TaskId = nat

  datatype Task = Task(taskId: TaskId, prompt: string, description: Option<string>, status: TaskStatus, output: string)

  /** What an executor does with one task. */
  datatype Execution = Ran(ok: bool, output: string) | Threw(message: string)

  function Executed(t: Task, e: Execution): Task {
    match e
    case Ran(ok, output) => t.(output := t.output + output, status := if ok then Completed else Failed)
    case Threw(message) => t.(output := t.output + ("ERROR: " + message), status := Failed)
  }

  class TaskRegistry {
    var order: seq<TaskId>  // insertion order of the map
    var tasks: map<TaskId, Task>
    var lastId: nat

    ghost predicate Valid()
      reads this
    {
      && (forall i :: 0 <= i < |order| ==> order[i] in tasks && order[i] <= lastId)
      && (forall id :: id in tasks ==> id in order && tasks[id].taskId == id)
      && (forall i, j :: 0 <= i < j < |order| ==> order[i] != order[j])
    }

    constructor ()
      ensures Valid() && order == [] && tasks == map[] && lastId == 0
    {
      order, tasks, lastId := [], map[], 0;
    }

    method Create(prompt: string, description: Option<string>) returns (task: Task)
      requires Valid()
      modifies this
      ensures Valid() && lastId == old(lastId) + 1
      ensures task == Task(lastId, prompt, description, Created, "")
      ensures order == old(order) + [lastId] && tasks == old(tasks)[lastId := task]
    {
      lastId := lastId + 1;
      task := Task(lastId, prompt, description, Created, "");
      tasks := tasks[lastId := task];
      order := order + [lastId];
    }

    method SetStatus(id: TaskId, status: TaskStatus) returns (found: bool)
      modifies this`tasks
      ensures found == (id in old(tasks))
      ensures tasks == if found then old(tasks)[id := old(tasks)[id].(status := status)] else old(tasks)
    {
      if id !in tasks {
        return false;
      }
      tasks := tasks[id := tasks[id].(status := status)];
      return true;
    }

    method AppendOutput(id: TaskId, output: string) returns (found: bool)
      modifies this`tasks
      ensures found == (id in old(tasks))
      ensures tasks == if found then old(tasks)[id := old(tasks)[id].(output := old(tasks)[id].output + output)]
                       else old(tasks)
    {
      if id !in tasks {
        return false;
      }
      tasks := tasks[id := tasks[id].(output := tasks[id].output + output)];
      return true;
    }

    /** Tasks with this status, in creation order. */
    method List(status: TaskStatus) returns (ids: seq<TaskId>)
      requires Valid()
      ensures ids == WithStatus(order, tasks, status)
    {
      ids := [];
      var i := 0;
      while i < |order|
        invariant 0 <= i <= |order|
        invariant ids == WithStatus(order[..i], tasks, status)
      {
        assert order[..i + 1][..i] == order[..i];
        if tasks[order[i]].status == status {
          ids := ids + [order[i]];
        }
        i := i + 1;
      }
      assert order[..i] == order;
    }
  }

  function WithStatus(order: seq<TaskId>, tasks: map<TaskId, Task>, status: TaskStatus): seq<TaskId>
    requires forall i :: 0 <= i < |order| ==> order[i] in tasks
  {
    if order == [] then []
    else
      var last := order[|order| - 1];
      WithStatus(order[..|order| - 1], tasks, status) + (if tasks[last].status == status then [last] else [])
  }

  predicate Distinct(ids: seq<TaskId>) {
    forall i, j :: 0 <= i < j < |ids| ==> ids[i] != ids[j]
  }

  /** Some members of `order`, in its order and without repetition, all with this status. */
  ghost predicate Selects(ids: seq<TaskId>, order: seq<TaskId>, tasks: map<TaskId, Task>, status: TaskStatus) {
    && Distinct(ids)
    && (forall i :: 0 <= i < |ids| ==> Member(ids[i], order) && ids[i] in tasks && tasks[ids[i]].status == status)
    && forall i, j :: 0 <= i < j < |ids| ==> Precedes(ids[i], ids[j], order)
  }

  ghost predicate Precedes(a: TaskId, b: TaskId, order: seq<TaskId>) {
    exists p, q :: 0 <= p < q < |order| && order[p] == a && order[q] == b
  }

  lemma PrecedesSnoc(a: TaskId, b: TaskId, order: seq<TaskId>, last: TaskId)
    ensures Precedes(a, b, order) ==> Precedes(a, b, order + [last])
    ensures Member(a, order) ==> Precedes(a, last, order + [last])
  {
    var all := order + [last];
    assert all[|order|] == last;
    if Precedes(a, b, order) {
      var p, q :| 0 <= p < q < |order| && order[p] == a && order[q] == b;
      assert all[p] == a && all[q] == b;
    }
    if Member(a, order) {
      var p :| 0 <= p < |order| && order[p] == a;
      assert all[p] == a;
    }
  }

  ghost predicate Member(id: TaskId, order: seq<TaskId>) {
    exists j :: 0 <= j < |order| && order[j] == id
  }

  lemma MemberSnoc(id: TaskId, order: seq<TaskId>, last: TaskId)
    ensures Member(id, order + [last]) <==> Member(id, order) || id == last
  {
    var all := order + [last];
    if Member(id, order) {
      var j :| 0 <= j < |order| && order[j] == id;
      assert all[j] == id;
    }
    assert all[|order|] == last;
  }

  lemma {:induction false} WithStatusSelects(order: seq<TaskId>, tasks: map<TaskId, Task>, status: TaskStatus)
    requires Distinct(order) && forall i :: 0 <= i < |order| ==> order[i] in tasks
    ensures Selects(WithStatus(order, tasks, status), order, tasks, status)
  {
    hide Member, Precedes;
    if order != [] {
      var front, last := order[..|order| - 1], order[|order| - 1];
      WithStatusSelects(front, tasks, status);
      var ids := WithStatus(front, tasks, status);
      assert order == front + [last];
      forall i | 0 <= i < |ids| ensures Member(ids[i], order) && ids[i] != last && Precedes(ids[i], last, order) {
        MemberSnoc(ids[i], front, last);
        PrecedesSnoc(ids[i], last, front, last);
        LastIsNew(order, ids[i]);
      }
      forall i, j | 0 <= i < j < |ids| ensures Precedes(ids[i], ids[j], order) {
        PrecedesSnoc(ids[i], ids[j], front, last);
      }
      MemberSnoc(last, front, last);
    }
  }

  lemma LastIsNew(order: seq<TaskId>, id: TaskId)
    requires order != [] && Distinct(order) && Member(id, order[..|order| - 1])
    ensures id != order[|order| - 1]
  {
  }

  lemma {:induction false} AllHaveStatus(order: seq<TaskId>, tasks: map<TaskId, Task>, status: TaskStatus)
    requires forall i :: 0 <= i < |order| ==> order[i] in tasks && tasks[order[i]].status == status
    ensures WithStatus(order, tasks, status) == order
  {
    if order != [] {
      AllHaveStatus(order[..|order| - 1], tasks, status);
    }
  }

  // ----- a batch

  /** The registry after some tasks ran: theirs replaced, all others untouched. */
  ghost predicate Ran'(before: map<TaskId, Task>, after: map<TaskId, Task>, ids: seq<TaskId>,
                       outcome: TaskId -> Execution)
  {
    && after.Keys == before.Keys
    && forall id :: id in before ==> after[id] == if id in ids then Executed(before[id], outcome(id)) else before[id]
  }

  ghost predicate ResultsOf(before: map<TaskId, Task>, results: seq<Task>, ids: seq<TaskId>,
                            outcome: TaskId -> Execution)
    requires forall i :: 0 <= i < |ids| ==> ids[i] in before
  {
    && |results| == |ids|
    && forall i :: 0 <= i < |ids| ==> results[i] == Executed(before[ids[i]], outcome(ids[i]))
  }

  ghost function RunningAmong(state: map<TaskId, Task>, ids: seq<TaskId>): set<TaskId> {
    set id | id in ids && id in state && state[id].status == Running
  }

  ghost predicate AtMost(states: seq<map<TaskId, Task>>, ids: seq<TaskId>, n: nat) {
    forall k :: 0 <= k < |states| ==> |RunningAmong(states[k], ids)| <= n
  }

  /** Every state is the one before with one task started, or with one executed. */
  ghost predicate Stepwise(first: map<TaskId, Task>, states: seq<map<TaskId, Task>>, outcome: TaskId -> Execution) {
    forall k :: 0 <= k < |states| ==> OneStep(Current(first, states[..k]), states[k], outcome)
  }

  ghost predicate OneStep(a: map<TaskId, Task>, b: map<TaskId, Task>, outcome: TaskId -> Execution) {
    exists id :: id in a && (b == a[id := a[id].(status := Running)] || b == a[id := Executed(a[id], outcome(id))])
  }

  ghost function Current(first: map<TaskId, Task>, states: seq<map<TaskId, Task>>): map<TaskId, Task> {
    if states == [] then first else states[|states| - 1]
  }

  lemma StepTaken(first: map<TaskId, Task>, states: seq<map<TaskId, Task>>, next: map<TaskId, Task>,
                  outcome: TaskId -> Execution)
    requires Stepwise(first, states, outcome) && OneStep(Current(first, states), next, outcome)
    ensures Stepwise(first, states + [next], outcome) && Current(first, states + [next]) == next
  {
    hide OneStep;
    var all := states + [next];
    forall k | 0 <= k < |all| ensures OneStep(Current(first, all[..k]), all[k], outcome) {
      assert all[..k] == states[..k];
      assert k == |states| ==> states[..k] == states;
    }
  }

  lemma {:induction false} StepsJoin(first: map<TaskId, Task>, states: seq<map<TaskId, Task>>,
                                     more: seq<map<TaskId, Task>>, outcome: TaskId -> Execution)
    requires Stepwise(first, states, outcome) && Stepwise(Current(first, states), more, outcome)
    ensures Stepwise(first, states + more, outcome)
    ensures Current(first, states + more) == Current(Current(first, states), more)
    decreases |more|
  {
    hide Stepwise, OneStep;
    if more == [] {
      assert states + more == states;
    } else {
      var front, last := more[..|more| - 1], more[|more| - 1];
      StepBefore(Current(first, states), more, outcome);
      StepsJoin(first, states, front, outcome);
      StepTaken(first, states + front, last, outcome);
      assert states + more == states + front + [last];
    }
  }

  lemma StepBefore(first: map<TaskId, Task>, states: seq<map<TaskId, Task>>, outcome: TaskId -> Execution)
    requires states != [] && Stepwise(first, states, outcome)
    ensures var front := states[..|states| - 1];
            Stepwise(first, front, outcome) && OneStep(Current(first, front), states[|states| - 1], outcome)
  {
    hide OneStep, Current;
    var front := states[..|states| - 1];
    forall k | 0 <= k < |front| ensures OneStep(Current(first, front[..k]), front[k], outcome) {
      assert front[..k] == states[..k];
    }
  }

  /** `n` is the largest whole number not above the concurrency given, or 1 when that is below 1. */
  ghost predicate Allows(concurrency: Option<real>, n: nat) {
    var c := if concurrency.Some? then concurrency.value else 1.0;
    n >= 1 && (n == 1 || n as real <= c) && c < (n + 1) as real
  }

  /** The tasks among `ids` that run in a state and did not run in the first one. */
  ghost function Started(first: map<TaskId, Task>, state: map<TaskId, Task>, ids: seq<TaskId>): set<TaskId> {
    set id | id in ids && id in state && state[id].status == Running && !(id in first && first[id].status == Running)
  }

  /** In every state at most one task that did not run before is running, or no more than the concurrency given. */
  ghost predicate Bounded(first: map<TaskId, Task>, states: seq<map<TaskId, Task>>, ids: seq<TaskId>,
                          concurrency: Option<real>)
  {
    var c := if concurrency.Some? then concurrency.value else 1.0;
    forall k :: 0 <= k < |states| ==>
      |Started(first, states[k], ids)| <= 1 || |Started(first, states[k], ids)| as real <= c
  }

  /** Consecutive slices of `ids`, every one but the last of `n` tasks. */
  ghost predicate Sliced(slices: seq<seq<TaskId>>, ids: seq<TaskId>, n: nat) {
    && Flatten(slices) == ids
    && (forall j :: 0 <= j < |slices| ==> 0 < |slices[j]| <= n)
    && forall j :: 0 <= j < |slices| - 1 ==> |slices[j]| == n
  }

  ghost predicate AsLargeAsAllowed(slices: seq<seq<TaskId>>, ids: seq<TaskId>, concurrency: Option<real>) {
    exists n: nat :: Allows(concurrency, n) && Sliced(slices, ids, n)
  }

  lemma AllowedBound(first: map<TaskId, Task>, states: seq<map<TaskId, Task>>, ids: seq<TaskId>,
                     concurrency: Option<real>, n: nat)
    requires Allows(concurrency, n) && AtMost(states, Idle(first, ids), n)
    ensures Bounded(first, states, ids, concurrency)
  {
    hide RunningAmong, Started, Idle;
    var c := if concurrency.Some? then concurrency.value else 1.0;
    forall k | 0 <= k < |states|
      ensures |Started(first, states[k], ids)| <= 1 || |Started(first, states[k], ids)| as real <= c
    {
      StartedAreIdle(first, states[k], ids);
      assert |RunningAmong(states[k], Idle(first, ids))| <= n;
    }
  }

  lemma StartedAreIdle(first: map<TaskId, Task>, state: map<TaskId, Task>, ids: seq<TaskId>)
    ensures Started(first, state, ids) == RunningAmong(state, Idle(first, ids))
  {
    hide Idle;
    IdleMeans(first, ids);
    IdleHasAll(first, ids);
    forall id ensures id in Started(first, state, ids) <==> id in RunningAmong(state, Idle(first, ids)) {
      if id in ids {
        var i :| 0 <= i < |ids| && ids[i] == id;
      }
    }
  }

  /** Where no task ran before, all that run are counted. */
  lemma AllCounted(first: map<TaskId, Task>, states: seq<map<TaskId, Task>>, ids: seq<TaskId>,
                   concurrency: Option<real>)
    requires Bounded(first, states, ids, concurrency)
    requires forall i :: 0 <= i < |ids| ==> ids[i] in first && first[ids[i]].status == Created
    ensures Bounded(map[], states, ids, concurrency)
  {
    forall k | 0 <= k < |states| ensures Started(map[], states[k], ids) == Started(first, states[k], ids) {
    }
  }

  lemma SliceCut(slices: seq<seq<TaskId>>, ids: seq<TaskId>, index: nat, end: nat, n: nat)
    requires index < end <= |ids| && end - index <= n && Sliced(slices, ids[..index], n)
    requires forall j :: 0 <= j < |slices| ==> |slices[j]| == n
    ensures Sliced(slices + [ids[index..end]], ids[..end], n)
  {
    FlattenSnoc(slices, ids[index..end]);
    assert ids[..end] == ids[..index] + ids[index..end];
  }

  /** Registered tasks, each named once, whatever their status. */
  ghost predicate Ready(tasks: map<TaskId, Task>, ids: seq<TaskId>) {
    Distinct(ids) && forall i :: 0 <= i < |ids| ==> ids[i] in tasks
  }

  /** The tasks among `ids` that are not running already. */
  ghost function Idle(tasks: map<TaskId, Task>, ids: seq<TaskId>): seq<TaskId> {
    if ids == [] then []
    else
      var last := ids[|ids| - 1];
      Idle(tasks, ids[..|ids| - 1]) + if last in tasks && tasks[last].status == Running then [] else [last]
  }

  lemma {:induction false} IdleMeans(tasks: map<TaskId, Task>, ids: seq<TaskId>)
    ensures forall id :: id in Idle(tasks, ids) ==> id in ids && !(id in tasks && tasks[id].status == Running)
  {
    if ids != [] {
      IdleMeans(tasks, ids[..|ids| - 1]);
    }
  }

  lemma {:induction false} IdleHasAll(tasks: map<TaskId, Task>, ids: seq<TaskId>)
    ensures forall i :: 0 <= i < |ids| && !(ids[i] in tasks && tasks[ids[i]].status == Running) ==>
              ids[i] in Idle(tasks, ids)
  {
    if ids != [] {
      IdleHasAll(tasks, ids[..|ids| - 1]);
    }
  }

  /** Inside a slice only its own tasks are ever running. */
  ghost predicate OnlySlice(states: seq<map<TaskId, Task>>, ids: seq<TaskId>, slice: seq<TaskId>) {
    forall k, id :: 0 <= k < |states| && id in states[k] && id in ids && states[k][id].status == Running ==> id in slice
  }

  class Runner {
    const registry: TaskRegistry
    const outcome: TaskId -> Execution

    constructor (registry: TaskRegistry, outcome: TaskId -> Execution)
      ensures this.registry == registry && this.outcome == outcome
    {
      this.registry := registry;
      this.outcome := outcome;
    }

    /** The part of a task's run before its executor is awaited. */
    method Start(id: TaskId)
      requires id in registry.tasks
      modifies registry`tasks
      ensures registry.tasks == old(registry.tasks)[id := old(registry.tasks)[id].(status := Running)]
    {
      var _ := registry.SetStatus(id, Running);
    }

    /** The part after it: output, final status, and the copy that is returned. */
    method Conclude(id: TaskId) returns (result: Task)
      requires id in registry.tasks
      modifies registry`tasks
      ensures result.output == old(registry.tasks)[id].output
                               + match outcome(id) case Ran(_, output) => output case Threw(m) => "ERROR: " + m
      ensures result.status == if outcome(id).Ran? && outcome(id).ok then Completed else Failed
      ensures result == Executed(old(registry.tasks)[id], outcome(id))
      ensures registry.tasks == old(registry.tasks)[id := result]
    {
      match outcome(id) {
        case Ran(ok, output) =>
          var _ := registry.AppendOutput(id, output);
          var _ := registry.SetStatus(id, if ok then Completed else Failed);
        case Threw(message) =>
          var _ := registry.AppendOutput(id, "ERROR: " + message);
          var _ := registry.SetStatus(id, Failed);
      }
      result := registry.tasks[id];
    }

    /**
     * `Promise.all` over one slice. Starts happen in order; each started task may conclude at any later moment, so the
     * scheduler's choices are left open. `states` lists the registry after every step, `executed` the executor calls.
     */
    method RunSlice(slice: seq<TaskId>, ghost ids: seq<TaskId>)
      returns (results: seq<Task>, states: seq<map<TaskId, Task>>, executed: seq<TaskId>)
      requires Ready(registry.tasks, slice)
      requires forall id :: id in ids && id in registry.tasks && registry.tasks[id].status == Running ==> id in slice
      modifies registry`tasks
      ensures Ran'(old(registry.tasks), registry.tasks, slice, outcome)
      ensures ResultsOf(old(registry.tasks), results, slice, outcome)
      ensures executed == slice
      ensures OnlySlice(states, ids, slice)
      ensures |states| == 2 * |slice|
      ensures Stepwise(old(registry.tasks), states, outcome)
      ensures registry.tasks == Current(old(registry.tasks), states)
    {
      hide Stepwise, Current, SliceRun, OnlySlice, Ready, Ran', ResultsOf, Executed;
      ghost var before := registry.tasks;
      var started := 0;
      var pending: set<nat> := {};
      var finished: map<nat, Task> := map[];
      states, executed := [], [];
      SliceStarts(before, slice, outcome, ids);
      while started < |slice| || pending != {}
        invariant 0 <= started <= |slice|
        invariant SliceRun(before, slice, ids, outcome,
                           Progress(registry.tasks, started, pending, finished, executed, states))
        decreases |slice| - started, |pending|
      {
        ghost var at := Progress(registry.tasks, started, pending, finished, executed, states);
        if {
          case started < |slice| =>
            StartStep(before, slice, ids, outcome, at);
            Start(slice[started]);
            executed := executed + [slice[started]];
            pending := pending + {started};
            started := started + 1;
          case pending != {} =>
            var i :| i in pending;
            ConcludeStep(before, slice, ids, outcome, at, i);
            var result := Conclude(slice[i]);
            finished := finished[i := result];
            pending := pending - {i};
        }
        states := states + [registry.tasks];
      }
      SliceEnds(before, slice, ids, outcome, Progress(registry.tasks, started, pending, finished, executed, states));
      results := Gathered(finished, |slice|);
    }

    /** Runs tasks in slices of `concurrency`; the next slice starts only when the whole slice has settled. */
    method RunBatch(ids: seq<TaskId>, concurrency: Option<real>)
      returns (results: seq<Task>, states: seq<map<TaskId, Task>>, executed: seq<TaskId>, slices: seq<seq<TaskId>>)
      requires Ready(registry.tasks, ids)
      modifies registry`tasks
      ensures Ran'(old(registry.tasks), registry.tasks, ids, outcome)
      ensures ResultsOf(old(registry.tasks), results, ids, outcome)
      ensures executed == ids && AsLargeAsAllowed(slices, ids, concurrency)
      ensures Bounded(old(registry.tasks), states, ids, concurrency) && |states| == 2 * |ids|
      ensures Stepwise(old(registry.tasks), states, outcome)
      ensures registry.tasks == Current(old(registry.tasks), states)
    {
      hide Ready, Ran', ResultsOf, OnlySlice, AtMost, AtOnce, Idle, Sliced, Allows, Stepwise, Current, Bounded;
      ghost var before := registry.tasks;
      ghost var idle := Idle(before, ids);
      var n := AtOnce(concurrency);
      AtOnceIsAllowed(concurrency);
      results, states, executed, slices := [], [], [], [];
      var index := 0;
      BatchStarts(before, ids, idle, outcome, n);
      while index < |ids|
        invariant 0 <= index <= |ids|
        invariant Ran'(before, registry.tasks, ids[..index], outcome)
        invariant forall i :: 0 <= i < index ==> ids[i] in before
        invariant ResultsOf(before, results, ids[..index], outcome)
        invariant executed == ids[..index]
        invariant AtMost(states, idle, n) && |states| == 2 * index
        invariant Stepwise(before, states, outcome) && registry.tasks == Current(before, states)
        invariant Sliced(slices, ids[..index], n)
        invariant index < |ids| ==> forall j :: 0 <= j < |slices| ==> |slices[j]| == n
        decreases |ids| - index
      {
        var end := if index + n < |ids| then index + n else |ids|;
        var slice := ids[index..end];
        ghost var mid := registry.tasks;
        SliceIsReady(before, mid, ids, index, end, outcome);
        var part, more, called := RunSlice(slice, idle);
        BatchGrows(before, mid, registry.tasks, ids, index, end, outcome, results, part);
        StatesGrow(states, more, idle, slice, n);
        StepsJoin(before, states, more, outcome);
        SliceCut(slices, ids, index, end, n);
        assert ids[..end] == ids[..index] + slice;
        results, states, executed := results + part, states + more, executed + called;
        slices := slices + [slice];
        index := end;
      }
      assert ids[..index] == ids;
      AllowedBound(before, states, ids, concurrency, n);
    }

    /** Every created task, in creation order. */
    method RunPending(concurrency: Option<real>)
      returns (results: seq<Task>, states: seq<map<TaskId, Task>>, executed: seq<TaskId>, slices: seq<seq<TaskId>>)
      requires registry.Valid()
      modifies registry`tasks
      ensures registry.Valid()
      ensures Selects(executed, registry.order, old(registry.tasks), Created)
      ensures executed == WithStatus(registry.order, old(registry.tasks), Created)
      ensures Ran'(old(registry.tasks), registry.tasks, executed, outcome)
      ensures ResultsOf(old(registry.tasks), results, executed, outcome)
      ensures AsLargeAsAllowed(slices, executed, concurrency)
      ensures Bounded(map[], states, executed, concurrency) && |states| == 2 * |executed|
      ensures Stepwise(old(registry.tasks), states, outcome)
      ensures registry.tasks == Current(old(registry.tasks), states)
      ensures forall id :: id in executed ==> registry.tasks[id].status in {Completed, Failed}
      ensures WithStatus(registry.order, registry.tasks, Created) == []
    {
      hide ResultsOf, Idle, WithStatus, Executed, Stepwise, Current, Bounded, AsLargeAsAllowed;
      var ids := registry.List(Created);
      ghost var before := registry.tasks;
      WithStatusSelects(registry.order, registry.tasks, Created);
      results, states, executed, slices := RunBatch(ids, concurrency);
      AllCounted(before, states, ids, concurrency);
      NothingLeftPending(registry.order, before, registry.tasks, outcome);
      RanKeepsIds(before, registry.tasks, executed, outcome);
    }
  }

  lemma RanKeepsIds(before: map<TaskId, Task>, after: map<TaskId, Task>, ids: seq<TaskId>, outcome: TaskId -> Execution)
    requires Ran'(before, after, ids, outcome)
    ensures forall id :: id in before ==> id in after && after[id].taskId == before[id].taskId
  {
  }

  lemma {:induction false} EveryOneListed(order: seq<TaskId>, tasks: map<TaskId, Task>, status: TaskStatus)
    requires forall i :: 0 <= i < |order| ==> order[i] in tasks
    ensures forall i ::
              0 <= i < |order| && tasks[order[i]].status == status ==> order[i] in WithStatus(order, tasks, status)
  {
    if order != [] {
      EveryOneListed(order[..|order| - 1], tasks, status);
    }
  }

  lemma {:induction false} NoneListed(order: seq<TaskId>, tasks: map<TaskId, Task>, status: TaskStatus)
    requires forall i :: 0 <= i < |order| ==> order[i] in tasks && tasks[order[i]].status != status
    ensures WithStatus(order, tasks, status) == []
  {
    if order != [] {
      NoneListed(order[..|order| - 1], tasks, status);
    }
  }

  /** Running every created task ends each of them and leaves none to run: a second pass has nothing to do. */
  lemma NothingLeftPending(order: seq<TaskId>, before: map<TaskId, Task>, after: map<TaskId, Task>,
                           outcome: TaskId -> Execution)
    requires forall i :: 0 <= i < |order| ==> order[i] in before
    requires Ran'(before, after, WithStatus(order, before, Created), outcome)
    ensures forall id ::
              id in WithStatus(order, before, Created) && id in before ==> after[id].status in {Completed, Failed}
    ensures WithStatus(order, after, Created) == []
  {
    hide Executed, WithStatus;
    var ids := WithStatus(order, before, Created);
    EveryOneListed(order, before, Created);
    forall id | id in ids && id in before ensures after[id].status in {Completed, Failed} {
      ExecutedEnds(before[id], outcome(id));
    }
    NoneListed(order, after, Created);
  }

  /** `Math.max(1, Math.floor(concurrency ?? 1))`. */
  function AtOnce(concurrency: Option<real>): (n: nat)
    ensures n >= 1
  {
    var floor := concurrency.GetOr(1.0).Floor;
    if floor < 1 then 1 else floor
  }

  lemma AtOnceIsAllowed(concurrency: Option<real>)
    ensures Allows(concurrency, AtOnce(concurrency))
  {
  }

  lemma BatchStarts(before: map<TaskId, Task>, ids: seq<TaskId>, idle: seq<TaskId>, outcome: TaskId -> Execution,
                    n: nat)
    ensures Ran'(before, before, ids[..0], outcome) && ResultsOf(before, [], ids[..0], outcome)
    ensures AtMost([], idle, n) && Sliced([], ids[..0], n)
    ensures Stepwise(before, [], outcome) && Current(before, []) == before
  {
  }

  /** The next slice is untouched, and between slices nothing is running that was not running before. */
  lemma SliceIsReady(before: map<TaskId, Task>, mid: map<TaskId, Task>, ids: seq<TaskId>, index: nat, end: nat,
                     outcome: TaskId -> Execution)
    requires Ready(before, ids) && index <= end <= |ids| && Ran'(before, mid, ids[..index], outcome)
    ensures Ready(mid, ids[index..end])
    ensures forall id :: id in Idle(before, ids) && id in mid ==> mid[id].status != Running
  {
    hide Executed, Idle;
    IdleMeans(before, ids);
    forall id | id in Idle(before, ids) && id in mid ensures mid[id].status != Running {
      ExecutedEnds(before[id], outcome(id));
    }
  }

  /** A task that ran ends completed exactly when its executor said so, and failed otherwise. */
  lemma ExecutedEnds(t: Task, e: Execution)
    ensures Executed(t, e).status == if e.Ran? && e.ok then Completed else Failed
  {
  }

  lemma BatchGrows(before: map<TaskId, Task>, mid: map<TaskId, Task>, after: map<TaskId, Task>, ids: seq<TaskId>,
                   index: nat, end: nat, outcome: TaskId -> Execution, results: seq<Task>, part: seq<Task>)
    requires Ready(before, ids) && index <= end <= |ids|
    requires Ran'(before, mid, ids[..index], outcome) && Ran'(mid, after, ids[index..end], outcome)
    requires ResultsOf(before, results, ids[..index], outcome) && ResultsOf(mid, part, ids[index..end], outcome)
    ensures Ran'(before, after, ids[..end], outcome)
    ensures forall i :: 0 <= i < end ==> ids[i] in before
    ensures ResultsOf(before, results + part, ids[..end], outcome)
  {
    hide Executed;
    assert ids[..end] == ids[..index] + ids[index..end];
    forall i | index <= i < end ensures ids[i] !in ids[..index] && mid[ids[i]] == before[ids[i]] {
    }
    forall i | 0 <= i < end ensures (results + part)[i] == Executed(before[ids[i]], outcome(ids[i])) {
      if i < index {
        assert ids[..index][i] == ids[i];
      } else {
        assert ids[index..end][i - index] == ids[i];
      }
    }
    forall id | id in before
      ensures after[id] == if id in ids[..end] then Executed(before[id], outcome(id)) else before[id]
    {
      if id in ids[index..end] {
        var i :| 0 <= i < |ids[index..end]| && ids[index..end][i] == id;
        assert ids[index + i] == id;
      }
    }
  }

  ghost function Members(slice: seq<TaskId>): set<TaskId> {
    set id | id in slice
  }

  lemma {:induction false} MembersAtMostLength(slice: seq<TaskId>)
    ensures |Members(slice)| <= |slice|
  {
    if slice != [] {
      var front, last := slice[..|slice| - 1], slice[|slice| - 1];
      MembersAtMostLength(front);
      assert slice == front + [last];
      assert Members(slice) == Members(front) + {last};
    }
  }

  lemma SubsetSize(a: set<TaskId>, b: set<TaskId>)
    requires a <= b
    ensures |a| <= |b|
  {
    assert b == a + (b - a);
  }

  lemma StatesGrow(states: seq<map<TaskId, Task>>, more: seq<map<TaskId, Task>>, ids: seq<TaskId>, slice: seq<TaskId>,
                   n: nat)
    requires AtMost(states, ids, n) && OnlySlice(more, ids, slice) && |slice| <= n
    ensures AtMost(states + more, ids, n)
  {
    var all: seq<map<TaskId, Task>> := states + more;
    var members := Members(slice);
    MembersAtMostLength(slice);
    forall k | 0 <= k < |all| ensures |RunningAmong(all[k], ids)| <= n {
      if k >= |states| {
        assert all[k] == more[k - |states|];
        assert RunningAmong(all[k], ids) <= members;
        SubsetSize(RunningAmong(all[k], ids), members);
      } else {
        assert all[k] == states[k];
      }
    }
  }

  // ----- a team

  datatype TaskSpec = TaskSpec(prompt: string, description: Option<string>)
  datatype TeamResult = TeamResult(prompt: string, status: TaskStatus, output: string)
  datatype TeamReport = TeamReport(results: seq<TeamResult>, completed: nat, failed: nat)

  function CountStatus(results: seq<TeamResult>, status: TaskStatus): nat {
    if results == [] then 0
    else CountStatus(results[..|results| - 1], status) + (if results[|results| - 1].status == status then 1 else 0)
  }

  /** The line a report holds for one task. */
  function Reported(spec: TaskSpec, e: Execution): TeamResult {
    match e
    case Ran(ok, output) => TeamResult(spec.prompt, if ok then Completed else Failed, output)
    case Threw(message) => TeamResult(spec.prompt, Failed, "ERROR: " + message)
  }

  lemma {:induction false} EveryTaskCounts(results: seq<TeamResult>)
    requires forall i :: 0 <= i < |results| ==> results[i].status in {Completed, Failed}
    ensures CountStatus(results, Completed) + CountStatus(results, Failed) == |results|
  {
    if results != [] {
      EveryTaskCounts(results[..|results| - 1]);
    }
  }

  lemma ReportedIs(id: TaskId, spec: TaskSpec, e: Execution)
    ensures var t := Executed(Task(id, spec.prompt, spec.description, Created, ""), e);
            TeamResult(t.prompt, t.status, t.output) == Reported(spec, e)
  {
  }

  /** Task `i` of a new registry has id `i + 1`. */
  ghost predicate Enrolled(specs: seq<TaskSpec>, order: seq<TaskId>, tasks: map<TaskId, Task>) {
    && |order| == |specs|
    && forall i :: 0 <= i < |specs| ==>
         order[i] == i + 1 && order[i] in tasks
         && tasks[order[i]] == Task(i + 1, specs[i].prompt, specs[i].description, Created, "")
  }

  lemma NoneEnrolled(tasks: map<TaskId, Task>)
    ensures Enrolled([], [], tasks)
  {
  }

  lemma EnrollOne(specs: seq<TaskSpec>, n: nat, order: seq<TaskId>, tasks: map<TaskId, Task>)
    requires n < |specs| && Enrolled(specs[..n], order, tasks)
    ensures Enrolled(specs[..n + 1], order + [n + 1],
                     tasks[n + 1 := Task(n + 1, specs[n].prompt, specs[n].description, Created, "")])
  {
  }

  method Enroll(specs: seq<TaskSpec>) returns (registry: TaskRegistry)
    ensures fresh(registry) && registry.Valid() && Enrolled(specs, registry.order, registry.tasks)
  {
    hide Enrolled, TaskRegistry.Valid;
    registry := new TaskRegistry();
    NoneEnrolled(registry.tasks);
    assert specs[..0] == [];
    var n := 0;
    while n < |specs|
      invariant 0 <= n <= |specs|
      invariant fresh(registry) && registry.Valid() && registry.lastId == n
      invariant Enrolled(specs[..n], registry.order, registry.tasks)
    {
      EnrollOne(specs, n, registry.order, registry.tasks);
      var _ := registry.Create(specs[n].prompt, specs[n].description);
      n := n + 1;
    }
    assert specs[..n] == specs;
  }

  /**
   * A team run: one report line per task in the order given, whatever the interleaving; every task is executed once and
   * counted once; never more than the allowed number runs at a time.
   */
  method RunTeam(specs: seq<TaskSpec>, concurrency: Option<real>, outcome: TaskId -> Execution)
    returns (report: TeamReport, states: seq<map<TaskId, Task>>, executed: seq<TaskId>, slices: seq<seq<TaskId>>)
    ensures |report.results| == |specs|
    ensures forall i :: 0 <= i < |specs| ==> report.results[i] == Reported(specs[i], outcome(i + 1))
    ensures report.completed == CountStatus(report.results, Completed)
    ensures report.failed == CountStatus(report.results, Failed)
    ensures report.completed + report.failed == |specs|
    ensures executed == seq(|specs|, i => i + 1)
    ensures AsLargeAsAllowed(slices, executed, concurrency)
    ensures Bounded(map[], states, executed, concurrency) && |states| == 2 * |specs|
  {
    hide AsLargeAsAllowed, Bounded, Stepwise, Current, Executed, Enrolled, ResultsOf, Ran', Reported, Selects;
    var registry := Enroll(specs);
    ghost var before := registry.tasks;
    EnrolledOrder(specs, registry.order, before);
    var runner := new Runner(registry, outcome);
    var tasks;
    tasks, states, executed, slices := runner.RunPending(concurrency);
    TeamLines(specs, registry.order, before, tasks, outcome);
    report := Summarize(tasks);
    assert forall i :: 0 <= i < |specs| ==> report.results[i] == Line(tasks[i]);
    LinesAreFinal(specs, outcome, report.results);
    EveryTaskCounts(report.results);
  }

  function Line(t: Task): TeamResult {
    TeamResult(t.prompt, t.status, t.output)
  }

  method Summarize(tasks: seq<Task>) returns (report: TeamReport)
    ensures |report.results| == |tasks| && forall i :: 0 <= i < |tasks| ==> report.results[i] == Line(tasks[i])
    ensures report.completed == CountStatus(report.results, Completed)
    ensures report.failed == CountStatus(report.results, Failed)
  {
    var results := seq(|tasks|, i requires 0 <= i < |tasks| => Line(tasks[i]));
    var completed, failed := 0, 0;
    var i := 0;
    while i < |results|
      invariant 0 <= i <= |results|
      invariant completed == CountStatus(results[..i], Completed) && failed == CountStatus(results[..i], Failed)
    {
      assert results[..i + 1][..i] == results[..i];
      if results[i].status == Completed {
        completed := completed + 1;
      }
      if results[i].status == Failed {
        failed := failed + 1;
      }
      i := i + 1;
    }
    assert results[..i] == results;
    report := TeamReport(results, completed, failed);
  }

  lemma EnrolledOrder(specs: seq<TaskSpec>, order: seq<TaskId>, tasks: map<TaskId, Task>)
    requires Enrolled(specs, order, tasks)
    ensures |order| == |specs| && order == seq(|specs|, i => i + 1)
    ensures forall i :: 0 <= i < |order| ==> order[i] in tasks
    ensures WithStatus(order, tasks, Created) == order
  {
    hide WithStatus;
    AllHaveStatus(order, tasks, Created);
  }

  lemma TeamLines(specs: seq<TaskSpec>, order: seq<TaskId>, before: map<TaskId, Task>, tasks: seq<Task>,
                  outcome: TaskId -> Execution)
    requires Enrolled(specs, order, before)
    requires ResultsOf(before, tasks, order, outcome)
    ensures |tasks| == |specs|
    ensures forall i :: 0 <= i < |specs| ==> Line(tasks[i]) == Reported(specs[i], outcome(i + 1))
  {
    hide Executed, Reported;
    forall i | 0 <= i < |specs| ensures Line(tasks[i]) == Reported(specs[i], outcome(i + 1)) {
      assert order[i] == i + 1;
      ReportedIs(i + 1, specs[i], outcome(i + 1));
    }
  }

  lemma LinesAreFinal(specs: seq<TaskSpec>, outcome: TaskId -> Execution, results: seq<TeamResult>)
    requires |results| == |specs| && forall i :: 0 <= i < |specs| ==> results[i] == Reported(specs[i], outcome(i + 1))
    ensures forall i :: 0 <= i < |results| ==> results[i].status in {Completed, Failed}
  {
  }

  /** What the tasks of a slice returned, in the order of the slice. */
  function Gathered(finished: map<nat, Task>, n: nat): seq<Task>
    requires forall i: nat :: i < n ==> i in finished
  {
    seq(n, i requires 0 <= i < n => finished[i])
  }

  lemma Collected(before: map<TaskId, Task>, finished: map<nat, Task>, slice: seq<TaskId>, outcome: TaskId -> Execution)
    requires forall i: nat :: i < |slice| ==>
               slice[i] in before && i in finished && finished[i] == Executed(before[slice[i]], outcome(slice[i]))
    ensures ResultsOf(before, Gathered(finished, |slice|), slice, outcome)
  {
    hide Executed;
  }

  /** Task `i` of a slice in the middle of it. */
  ghost function Midway(t: Task, e: Execution, i: nat, started: nat, pending: set<nat>): Task {
    if i >= started then t else if i in pending then t.(status := Running) else Executed(t, e)
  }

  /** A slice in the middle: who has started, who is awaited, what has been returned; no other task is touched. */
  ghost predicate SliceInv(before: map<TaskId, Task>, tasks: map<TaskId, Task>, slice: seq<TaskId>, started: nat,
                           pending: set<nat>, finished: map<nat, Task>, outcome: TaskId -> Execution)
  {
    && Ready(before, slice)
    && started <= |slice|
    && tasks.Keys == before.Keys
    && (forall id :: id in before && id !in slice ==> tasks[id] == before[id])
    && (forall i :: i in pending ==> i < started)
    && (forall i: nat :: i in finished <==> i < started && i !in pending)
    && (forall i :: i in finished ==> finished[i] == Executed(before[slice[i]], outcome(slice[i])))
    && forall i :: 0 <= i < |slice| ==>
         tasks[slice[i]] == Midway(before[slice[i]], outcome(slice[i]), i, started, pending)
  }

  /** A slice in the middle, with the executor calls made and the registry after every step. */
  datatype Progress = Progress(tasks: map<TaskId, Task>, started: nat, pending: set<nat>, finished: map<nat, Task>,
                               executed: seq<TaskId>, states: seq<map<TaskId, Task>>)

  ghost predicate SliceRun(before: map<TaskId, Task>, slice: seq<TaskId>, ids: seq<TaskId>,
                           outcome: TaskId -> Execution, p: Progress)
  {
    && (forall id :: id in ids && id in before && before[id].status == Running ==> id in slice)
    && SliceInv(before, p.tasks, slice, p.started, p.pending, p.finished, outcome)
    && p.executed == slice[..p.started]
    && OnlySlice(p.states, ids, slice)
    && |p.states| == 2 * p.started - |p.pending|
    && Stepwise(before, p.states, outcome) && p.tasks == Current(before, p.states)
  }

  lemma SliceStarts(before: map<TaskId, Task>, slice: seq<TaskId>, outcome: TaskId -> Execution, ids: seq<TaskId>)
    requires Ready(before, slice)
    requires forall id :: id in ids && id in before && before[id].status == Running ==> id in slice
    ensures SliceRun(before, slice, ids, outcome, Progress(before, 0, {}, map[], [], []))
  {
  }

  lemma StartStep(before: map<TaskId, Task>, slice: seq<TaskId>, ids: seq<TaskId>, outcome: TaskId -> Execution,
                  p: Progress)
    requires SliceRun(before, slice, ids, outcome, p) && p.started < |slice|
    ensures var id := slice[p.started];
            && id in p.tasks
            && var next := p.tasks[id := p.tasks[id].(status := Running)];
               SliceRun(before, slice, ids, outcome,
                        Progress(next, p.started + 1, p.pending + {p.started}, p.finished, p.executed + [id],
                                 p.states + [next]))
  {
    hide SliceInv, OnlySlice, Stepwise, Current;
    StartKeeps(before, p.tasks, slice, p.started, p.pending, p.finished, outcome);
    var id := slice[p.started];
    var next := p.tasks[id := p.tasks[id].(status := Running)];
    OnlyThisSlice(before, next, slice, p.started + 1, p.pending + {p.started}, p.finished, outcome, ids, p.states);
    assert OneStep(p.tasks, next, outcome);
    StepTaken(before, p.states, next, outcome);
  }

  lemma ConcludeStep(before: map<TaskId, Task>, slice: seq<TaskId>, ids: seq<TaskId>, outcome: TaskId -> Execution,
                     p: Progress, i: nat)
    requires SliceRun(before, slice, ids, outcome, p) && i in p.pending
    ensures i < |slice| && slice[i] in p.tasks
    ensures var result := Executed(p.tasks[slice[i]], outcome(slice[i]));
            var next := p.tasks[slice[i] := result];
            SliceRun(before, slice, ids, outcome,
                     Progress(next, p.started, p.pending - {i}, p.finished[i := result], p.executed, p.states + [next]))
  {
    hide SliceInv, OnlySlice, Executed, Stepwise, Current;
    ConcludeKeeps(before, p.tasks, slice, p.started, p.pending, p.finished, outcome, i);
    var result := Executed(p.tasks[slice[i]], outcome(slice[i]));
    var next := p.tasks[slice[i] := result];
    OnlyThisSlice(before, next, slice, p.started, p.pending - {i}, p.finished[i := result], outcome, ids, p.states);
    assert OneStep(p.tasks, next, outcome);
    StepTaken(before, p.states, next, outcome);
  }

  lemma StartKeeps(before: map<TaskId, Task>, tasks: map<TaskId, Task>, slice: seq<TaskId>, started: nat,
                   pending: set<nat>, finished: map<nat, Task>, outcome: TaskId -> Execution)
    requires SliceInv(before, tasks, slice, started, pending, finished, outcome) && started < |slice|
    ensures slice[started] in tasks && started !in pending
    ensures SliceInv(before, tasks[slice[started] := tasks[slice[started]].(status := Running)], slice, started + 1,
                     pending + {started}, finished, outcome)
  {
    hide Executed;
    var next := tasks[slice[started] := tasks[slice[started]].(status := Running)];
    forall i | 0 <= i < |slice|
      ensures next[slice[i]] == Midway(before[slice[i]], outcome(slice[i]), i, started + 1, pending + {started})
    {
      assert i != started ==> slice[i] != slice[started];
    }
  }

  lemma ConcludeKeeps(before: map<TaskId, Task>, tasks: map<TaskId, Task>, slice: seq<TaskId>, started: nat,
                      pending: set<nat>, finished: map<nat, Task>, outcome: TaskId -> Execution, i: nat)
    requires SliceInv(before, tasks, slice, started, pending, finished, outcome) && i in pending
    ensures i < |slice| && slice[i] in tasks
    ensures var result := Executed(tasks[slice[i]], outcome(slice[i]));
            SliceInv(before, tasks[slice[i] := result], slice, started, pending - {i}, finished[i := result], outcome)
  {
    hide Executed;
    ExecutedAnyStatus(before[slice[i]], outcome(slice[i]));
    var result := Executed(tasks[slice[i]], outcome(slice[i]));
    var next := tasks[slice[i] := result];
    forall j | 0 <= j < |slice|
      ensures next[slice[j]] == Midway(before[slice[j]], outcome(slice[j]), j, started, pending - {i})
    {
      assert j != i ==> slice[j] != slice[i];
    }
  }

  lemma OnlyThisSlice(before: map<TaskId, Task>, tasks: map<TaskId, Task>, slice: seq<TaskId>, started: nat,
                      pending: set<nat>, finished: map<nat, Task>, outcome: TaskId -> Execution,
                      ids: seq<TaskId>, states: seq<map<TaskId, Task>>)
    requires SliceInv(before, tasks, slice, started, pending, finished, outcome) && OnlySlice(states, ids, slice)
    requires forall id :: id in ids && id in before && before[id].status == Running ==> id in slice
    ensures OnlySlice(states + [tasks], ids, slice)
  {
    hide Executed, Midway;
    assert forall id :: id in before && id !in slice ==> tasks[id] == before[id];
    var all: seq<map<TaskId, Task>> := states + [tasks];
    forall k: int, id: TaskId | 0 <= k < |all| && id in all[k] && id in ids && all[k][id].status == Running
      ensures id in slice
    {
      assert k < |states| ==> all[k] == states[k];
    }
  }

  lemma SliceRan(before: map<TaskId, Task>, tasks: map<TaskId, Task>, slice: seq<TaskId>, finished: map<nat, Task>,
                 outcome: TaskId -> Execution)
    requires SliceInv(before, tasks, slice, |slice|, {}, finished, outcome)
    ensures Ran'(before, tasks, slice, outcome)
    ensures forall i: nat :: i < |slice| ==>
              slice[i] in before && i in finished && finished[i] == Executed(before[slice[i]], outcome(slice[i]))
  {
    hide Executed;
    forall id | id in before
      ensures tasks[id] == if id in slice then Executed(before[id], outcome(id)) else before[id]
    {
      if id in slice {
        var i :| 0 <= i < |slice| && slice[i] == id;
        assert tasks[slice[i]] == Midway(before[slice[i]], outcome(slice[i]), i, |slice|, {});
      }
    }
  }

  lemma SliceEnds(before: map<TaskId, Task>, slice: seq<TaskId>, ids: seq<TaskId>, outcome: TaskId -> Execution,
                  p: Progress)
    requires SliceRun(before, slice, ids, outcome, p) && p.started == |slice| && p.pending == {}
    ensures Ran'(before, p.tasks, slice, outcome)
    ensures forall i: nat :: i < |slice| ==> i in p.finished
    ensures forall i :: 0 <= i < |slice| ==> slice[i] in before
    ensures ResultsOf(before, Gathered(p.finished, |slice|), slice, outcome)
    ensures p.executed == slice && OnlySlice(p.states, ids, slice) && |p.states| == 2 * |slice|
    ensures Stepwise(before, p.states, outcome) && p.tasks == Current(before, p.states)
  {
    hide SliceInv, OnlySlice, Executed, Stepwise, Current;
    SliceRan(before, p.tasks, slice, p.finished, outcome);
    Collected(before, p.finished, slice, outcome);
    assert slice[..|slice|] == slice;
  }

  lemma ExecutedAnyStatus(t: Task, e: Execution)
    ensures Executed(t.(status := Running), e) == Executed(t, e)
  {
  }
}

/**
 * The task store: create, edit, delete and toggle operations on the Core Data
 * context, each pushed onto one serial queue and each ending in exactly one
 * completion.
 *
 * The context is modelled by what a fetch in it sees (`objects`, including
 * unsaved changes), what was last saved (`saved`) and Core Data's
 * `hasChanges`. A failed `save()` leaves the changes in the context, as Core
 * Data does. What Core Data does underneath is a parameter of each run: an
 * `Env` says whether the entity fetch throws and whether `save()` throws.
 */
module Store {

  import opened Options
  import opened Errors
  import opened Uuids
  import opened Entities

  datatype Context = Context(objects: seq<TaskEntity>, saved: seq<TaskEntity>, hasChanges: bool)

  /** One submitted call of the store's public interface. */
  datatype Request =
    | Save(tasks: seq<Task>)
    | Add(task: Task)
    | Edit(task: Task, newTask: Task)
    | Delete(task: Task)
    | ToggleCompletion(task: Task)

  /** What the framework does during one run: the error `context.fetch` throws, the error `context.save()` throws. */
  datatype Env = Env(fetchError: Option<Cause>, saveError: Option<Cause>)

  /** The context after one operation and the value its completion receives. */
  datatype Step = Step(context: Context, outcome: Outcome)

  /** The context and the completions after a sequence of operations. */
  datatype Run = Run(context: Context, outcomes: seq<Outcome>)

  /** One new entity per task, in the order of the tasks. */
  function EntitiesOf(tasks: seq<Task>): (es: seq<TaskEntity>)
    ensures |es| == |tasks|
    ensures forall i :: 0 <= i < |tasks| ==> es[i] == EntityOf(tasks[i])
  {
    if tasks == [] then [] else [EntityOf(tasks[0])] + EntitiesOf(tasks[1..])
  }

  /** One more task adds its own entity at the end. */
  lemma EntitiesOfPrefixStep(tasks: seq<Task>, i: nat)
    requires i < |tasks|
    ensures EntitiesOf(tasks[..i + 1]) == EntitiesOf(tasks[..i]) + [EntityOf(tasks[i])]
  {
    var l, r := EntitiesOf(tasks[..i + 1]), EntitiesOf(tasks[..i]) + [EntityOf(tasks[i])];
    assert forall j :: 0 <= j < |l| ==> l[j] == r[j];
  }

  /** `findEntity(by:)`: the position of the first entity with the id, if any. */
  function FindEntity(objects: seq<TaskEntity>, id: Uuid): (r: Option<nat>)
    ensures r.Some? ==> r.value < |objects| && objects[r.value].id == Some(id)
    ensures r.Some? ==> forall j :: 0 <= j < r.value ==> objects[j].id != Some(id)
    ensures r.None? ==> forall j :: 0 <= j < |objects| ==> objects[j].id != Some(id)
  {
    if objects == [] then None
    else if objects[0].id == Some(id) then Some(0)
    else match FindEntity(objects[1..], id)
      case None => None
      case Some(i) => Some(i + 1)
  }

  /** The error a framework failure is reported as: wrapped in `operationFailed`, or passed through raw. */
  function Report(c: Cause, wrapped: bool): Error {
    if wrapped then StoreError(OperationFailed(c)) else Framework(c)
  }

  /** `if context.hasChanges { try context.save() }`, then success. */
  function SaveIfChanged(ctx: Context, env: Env, wrapped: bool): Step {
    if !ctx.hasChanges then Step(ctx, Success)
    else match env.saveError
      case None => Step(Context(ctx.objects, ctx.objects, false), Success)
      case Some(c) => Step(ctx, Failure(Report(c, wrapped)))
  }

  function Overwrite(e: TaskEntity, newTask: Task): TaskEntity {
    e.(title := Some(newTask.title), descriptionText := Some(newTask.description),
       createdAt := Some(newTask.createdAt), isCompleted := newTask.isCompleted)
  }

  function Toggled(e: TaskEntity): TaskEntity {
    e.(isCompleted := !e.isCompleted)
  }

  function Removed(objects: seq<TaskEntity>, i: nat): seq<TaskEntity>
    requires i < |objects|
  {
    objects[..i] + objects[i + 1..]
  }

  /**
   * The effect of one operation on the context and the completion it ends in.
   * Only `delete` passes framework errors through raw; the others wrap them
   * in `operationFailed`. A missing id is `taskNotFound` for all three lookups.
   */
  function Apply(ctx: Context, req: Request, env: Env): Step {
    match req
    case Save(tasks) => ApplySave(ctx, tasks, env)
    case Add(task) => ApplyAdd(ctx, task, env)
    case Edit(task, newTask) => ApplyEdit(ctx, task, newTask, env)
    case Delete(task) => ApplyDelete(ctx, task, env)
    case ToggleCompletion(task) => ApplyToggle(ctx, task, env)
  }

  /** `save(tasks:)`: one new entity per task, then a save if anything changed. */
  function ApplySave(ctx: Context, tasks: seq<Task>, env: Env): Step {
    SaveIfChanged(Context(ctx.objects + EntitiesOf(tasks), ctx.saved, ctx.hasChanges || tasks != []), env, true)
  }

  /** `add(task:)`: one new entity, then a save. */
  function ApplyAdd(ctx: Context, task: Task, env: Env): Step {
    SaveIfChanged(Context(ctx.objects + [EntityOf(task)], ctx.saved, true), env, true)
  }

  /** `edit(task:newTask:)`: overwrite the first entity with the task's id, then a save. */
  function ApplyEdit(ctx: Context, task: Task, newTask: Task, env: Env): Step {
    if env.fetchError.Some? then Step(ctx, Failure(Report(env.fetchError.value, true)))
    else match FindEntity(ctx.objects, task.id)
      case None => Step(ctx, Failure(StoreError(TaskNotFound)))
      case Some(i) =>
        SaveIfChanged(Context(ctx.objects[i := Overwrite(ctx.objects[i], newTask)], ctx.saved, true), env, true)
  }

  /** `delete(task:)`: remove the first entity with the task's id, then a save with errors passed through raw. */
  function ApplyDelete(ctx: Context, task: Task, env: Env): Step {
    if env.fetchError.Some? then Step(ctx, Failure(Report(env.fetchError.value, false)))
    else match FindEntity(ctx.objects, task.id)
      case None => Step(ctx, Failure(StoreError(TaskNotFound)))
      case Some(i) => SaveIfChanged(Context(Removed(ctx.objects, i), ctx.saved, true), env, false)
  }

  /** `toggleCompletion(task:)`: flip the first matching entity's completion flag, then a save. */
  function ApplyToggle(ctx: Context, task: Task, env: Env): Step {
    if env.fetchError.Some? then Step(ctx, Failure(Report(env.fetchError.value, true)))
    else match FindEntity(ctx.objects, task.id)
      case None => Step(ctx, Failure(StoreError(TaskNotFound)))
      case Some(i) =>
        SaveIfChanged(Context(ctx.objects[i := Toggled(ctx.objects[i])], ctx.saved, true), env, true)
  }

  /** The operations run one after another, in order; each contributes exactly one completion. */
  function RunAll(ctx: Context, reqs: seq<Request>, envs: seq<Env>): (r: Run)
    requires |envs| == |reqs|
    ensures |r.outcomes| == |reqs|
    decreases |reqs|
  {
    if reqs == [] then Run(ctx, [])
    else
      var n := |reqs| - 1;
      var before := RunAll(ctx, reqs[..n], envs[..n]);
      var last := Apply(before.context, reqs[n], envs[n]);
      Run(last.context, before.outcomes + [last.outcome])
  }

  /** Running one more operation after a sequence is applying it to the sequence's final context. */
  lemma RunAllSnoc(ctx: Context, reqs: seq<Request>, envs: seq<Env>, req: Request, env: Env)
    requires |envs| == |reqs|
    ensures RunAll(ctx, reqs + [req], envs + [env])
         == var before := RunAll(ctx, reqs, envs);
            var last := Apply(before.context, req, env);
            Run(last.context, before.outcomes + [last.outcome])
  {
    assert (reqs + [req])[..|reqs|] == reqs;
    assert (envs + [env])[..|envs|] == envs;
  }

  /** The run of the first k + 1 operations extends the run of the first k by operation k. */
  lemma RunAllPrefixStep(ctx: Context, reqs: seq<Request>, envs: seq<Env>, k: nat)
    requires |envs| == |reqs| && k < |reqs|
    ensures RunAll(ctx, reqs[..k + 1], envs[..k + 1])
         == var before := RunAll(ctx, reqs[..k], envs[..k]);
            var last := Apply(before.context, reqs[k], envs[k]);
            Run(last.context, before.outcomes + [last.outcome])
  {
    assert reqs[..k + 1][..k] == reqs[..k] && envs[..k + 1][..k] == envs[..k];
  }

  /** The i-th completion is the one of the i-th operation, run on the context the earlier ones left. */
  lemma {:induction false} RunAllOutcomeAt(ctx: Context, reqs: seq<Request>, envs: seq<Env>, i: nat)
    requires |envs| == |reqs| && i < |reqs|
    ensures RunAll(ctx, reqs, envs).outcomes[i]
         == Apply(RunAll(ctx, reqs[..i], envs[..i]).context, reqs[i], envs[i]).outcome
    decreases |reqs|
  {
    var n := |reqs| - 1;
    if i < n {
      assert RunAll(ctx, reqs, envs).outcomes[i] == RunAll(ctx, reqs[..n], envs[..n]).outcomes[i];
      RunAllOutcomeAt(ctx, reqs[..n], envs[..n], i);
      assert reqs[..n][..i] == reqs[..i] && envs[..n][..i] == envs[..i];
    }
  }

  // ---------------------------------------------------------------------------
  // Properties of the single operations.

  /**
   * `save` adds one entity per task, in order, carrying the task's fields,
   * and never fails when nothing was pending and no task was given.
   */
  lemma SaveAddsOneEntityPerTask(ctx: Context, tasks: seq<Task>, env: Env)
    ensures var s := Apply(ctx, Save(tasks), env);
      && |s.context.objects| == |ctx.objects| + |tasks|
      && s.context.objects[..|ctx.objects|] == ctx.objects
      && (forall i :: 0 <= i < |tasks| ==> s.context.objects[|ctx.objects| + i] == EntityOf(tasks[i]))
      && (s.outcome.Success? <==> !((ctx.hasChanges || tasks != []) && env.saveError.Some?))
      && (!(ctx.hasChanges || tasks != []) ==> s == Step(ctx, Success))
      && (s.outcome.Success? && (ctx.hasChanges || tasks != []) ==>
            s.context.saved == s.context.objects && !s.context.hasChanges)
      && (s.outcome.Failure? ==> s.context.saved == ctx.saved && s.outcome.error == StoreError(OperationFailed(env.saveError.value)))
  {
  }

  /** `add` appends exactly one entity, even when an entity with the task's id exists; lookups still find the older one. */
  lemma AddNeverDeduplicates(ctx: Context, task: Task, env: Env)
    ensures var s := Apply(ctx, Add(task), env);
      && s.context.objects == ctx.objects + [EntityOf(task)]
      && (FindEntity(ctx.objects, task.id).Some? ==> FindEntity(s.context.objects, task.id) == FindEntity(ctx.objects, task.id))
      && (FindEntity(ctx.objects, task.id).None? ==> FindEntity(s.context.objects, task.id) == Some(|ctx.objects|))
  {
    var objs := ctx.objects + [EntityOf(task)];
    FindEntityExtend(ctx.objects, [EntityOf(task)], task.id);
    if FindEntity(ctx.objects, task.id).None? {
      assert objs[|ctx.objects|].id == Some(task.id);
      assert forall j :: 0 <= j < |ctx.objects| ==> objs[j] == ctx.objects[j];
    }
  }

  /** A lookup that succeeds in a prefix gives the same answer in any extension of it. */
  lemma FindEntityExtend(a: seq<TaskEntity>, b: seq<TaskEntity>, id: Uuid)
    ensures FindEntity(a, id).Some? ==> FindEntity(a + b, id) == FindEntity(a, id)
  {
    if FindEntity(a, id).Some? {
      assert forall j :: 0 <= j < |a| ==> (a + b)[j] == a[j];
    }
  }

  /** The request addresses an existing entity by the id of `task`. */
  predicate Addresses(req: Request) {
    req.Edit? || req.Delete? || req.ToggleCompletion?
  }

  /** `edit`, `delete` and `toggleCompletion` of a missing id end in `taskNotFound` and change nothing. */
  lemma MissingIdChangesNothing(ctx: Context, req: Request, env: Env)
    requires Addresses(req) && env.fetchError.None?
    requires FindEntity(ctx.objects, req.task.id).None?
    ensures Apply(ctx, req, env) == Step(ctx, Failure(StoreError(TaskNotFound)))
  {
  }

  /** A lookup that throws changes nothing; only `delete` passes the error through unwrapped. */
  lemma FetchErrorChangesNothing(ctx: Context, req: Request, env: Env)
    requires Addresses(req) && env.fetchError.Some?
    ensures var s := Apply(ctx, req, env);
      && s.context == ctx
      && s.outcome == Failure(if req.Delete? then Framework(env.fetchError.value)
                              else StoreError(OperationFailed(env.fetchError.value)))
  {
  }

  /** Two entity lists with the same ids at every position answer every lookup alike. */
  lemma {:induction false} FindEntitySameIds(a: seq<TaskEntity>, b: seq<TaskEntity>, id: Uuid)
    requires |a| == |b| && forall j :: 0 <= j < |a| ==> a[j].id == b[j].id
    ensures FindEntity(a, id) == FindEntity(b, id)
  {
    if a != [] {
      FindEntitySameIds(a[1..], b[1..], id);
    }
  }

  /**
   * `edit` overwrites title, description, creation date and completion of the
   * first entity with the old task's id by the new task's values; the entity
   * keeps its id and every other entity is unchanged.
   */
  lemma EditOverwritesFoundEntity(ctx: Context, task: Task, newTask: Task, env: Env)
    requires env.fetchError.None? && FindEntity(ctx.objects, task.id).Some?
    ensures var i := FindEntity(ctx.objects, task.id).value;
            var objs := Apply(ctx, Edit(task, newTask), env).context.objects;
      && |objs| == |ctx.objects|
      && objs[i] == TaskEntity(Some(task.id), Some(newTask.title), Some(newTask.description),
                               Some(newTask.createdAt), newTask.isCompleted)
      && (forall j :: 0 <= j < |objs| && j != i ==> objs[j] == ctx.objects[j])
  {
  }

  /** `toggleCompletion` flips the completion flag of the found entity and nothing else. */
  lemma ToggleFlipsOnlyCompletion(ctx: Context, task: Task, env: Env)
    requires env.fetchError.None? && FindEntity(ctx.objects, task.id).Some?
    ensures var i := FindEntity(ctx.objects, task.id).value;
            var objs := Apply(ctx, ToggleCompletion(task), env).context.objects;
      && |objs| == |ctx.objects|
      && objs[i] == ctx.objects[i].(isCompleted := !ctx.objects[i].isCompleted)
      && (forall j :: 0 <= j < |objs| && j != i ==> objs[j] == ctx.objects[j])
  {
  }

  /** Toggling the same task twice restores every entity. */
  lemma ToggleTwiceRestores(ctx: Context, task: Task, env1: Env, env2: Env)
    requires env1.fetchError.None? && env2.fetchError.None?
    ensures var once := Apply(ctx, ToggleCompletion(task), env1).context;
            Apply(once, ToggleCompletion(task), env2).context.objects == ctx.objects
  {
    var once := Apply(ctx, ToggleCompletion(task), env1).context;
    match FindEntity(ctx.objects, task.id)
    case None =>
    case Some(i) =>
      FindEntitySameIds(ctx.objects, once.objects, task.id);
      assert once.objects[i := Toggled(once.objects[i])] == ctx.objects;
  }

  /** `delete` removes exactly the first entity with the id and keeps all others, in order. */
  lemma DeleteRemovesFoundEntity(ctx: Context, task: Task, env: Env)
    requires env.fetchError.None? && FindEntity(ctx.objects, task.id).Some?
    ensures var i := FindEntity(ctx.objects, task.id).value;
            var objs := Apply(ctx, Delete(task), env).context.objects;
      && objs == ctx.objects[..i] + ctx.objects[i + 1..]
      && |objs| == |ctx.objects| - 1
      && multiset(objs) + multiset{ctx.objects[i]} == multiset(ctx.objects)
  {
    var i := FindEntity(ctx.objects, task.id).value;
    assert ctx.objects == ctx.objects[..i] + [ctx.objects[i]] + ctx.objects[i + 1..];
  }

  /**
   * Every failure of `save`, `add`, `edit` and `toggleCompletion` is a
   * `TaskError`, framework errors wrapped in `operationFailed`; `delete`
   * reports framework errors raw. Every reported framework error is one the
   * framework raised during that run.
   */
  lemma FailuresAreReportedAsDeclared(ctx: Context, req: Request, env: Env)
    ensures var o := Apply(ctx, req, env).outcome;
      && (!req.Delete? && o.Failure? ==> o.error.StoreError?)
      && (req.Delete? && o.Failure? ==> o.error == StoreError(TaskNotFound) || o.error.Framework?)
      && (o.Failure? && o.error.StoreError? && o.error.taskError.OperationFailed? ==>
            Some(o.error.taskError.cause) in {env.fetchError, env.saveError})
      && (o.Failure? && o.error.Framework? ==> Some(o.error.cause) in {env.fetchError, env.saveError})
  {
  }

  // ---------------------------------------------------------------------------
  // The store object: the context, the serial operation queue and the
  // completions delivered so far.

  class TaskStore {

    var objects: seq<TaskEntity>
    var saved: seq<TaskEntity>
    var hasChanges: bool
    /** `operationQueue`: operations submitted and not yet run, oldest first. */
    var queue: seq<Request>
    /** The completions delivered, one per operation run, in the order run. */
    var completions: seq<Outcome>

    /** The context the store was created with, the operations run on it and what the framework did in each. */
    ghost var initial: Context
    ghost var executed: seq<Request>
    ghost var envs: seq<Env>

    function State(): Context
      reads this
    {
      Context(objects, saved, hasChanges)
    }

    /** The current context and the completions are those of running the executed operations in order. */
    ghost predicate Valid()
      reads this
    {
      |envs| == |executed| &&
      RunAll(initial, executed, envs) == Run(State(), completions)
    }

    /** `init(context:queue:)`: a store over a context, with an empty queue. */
    constructor (context: Context)
      ensures Valid() && State() == context && initial == context
      ensures queue == [] && completions == [] && executed == []
    {
      objects, saved, hasChanges := context.objects, context.saved, context.hasChanges;
      queue, completions := [], [];
      initial, executed, envs := context, [], [];
    }

    /** `executeOperation`: the operation is queued behind every earlier one and nothing runs yet. */
    method ExecuteOperation(req: Request)
      modifies this`queue
      ensures queue == old(queue) + [req]
      ensures executed + queue == old(executed + queue) + [req]
    {
      queue := queue + [req];
    }

    method Save(tasks: seq<Task>)
      modifies this`queue
      ensures queue == old(queue) + [Request.Save(tasks)]
    {
      ExecuteOperation(Request.Save(tasks));
    }

    method Add(task: Task)
      modifies this`queue
      ensures queue == old(queue) + [Request.Add(task)]
    {
      ExecuteOperation(Request.Add(task));
    }

    method Edit(task: Task, newTask: Task)
      modifies this`queue
      ensures queue == old(queue) + [Request.Edit(task, newTask)]
    {
      ExecuteOperation(Request.Edit(task, newTask));
    }

    method Delete(task: Task)
      modifies this`queue
      ensures queue == old(queue) + [Request.Delete(task)]
    {
      ExecuteOperation(Request.Delete(task));
    }

    method ToggleCompletion(task: Task)
      modifies this`queue
      ensures queue == old(queue) + [Request.ToggleCompletion(task)]
    {
      ExecuteOperation(Request.ToggleCompletion(task));
    }

    /** `if context.hasChanges { try context.save() }`. */
    method SaveContextIfChanged(env: Env, wrapped: bool) returns (outcome: Outcome)
      modifies this`saved, this`hasChanges
      ensures var s := SaveIfChanged(old(State()), env, wrapped);
              State() == s.context && outcome == s.outcome
    {
      outcome := Success;
      if hasChanges {
        match env.saveError
        case None =>
          saved := objects;
          hasChanges := false;
        case Some(c) =>
          outcome := Failure(Report(c, wrapped));
      }
    }

    /** The body of `save`: one new entity per task, then save. */
    method PerformSave(tasks: seq<Task>, env: Env) returns (outcome: Outcome)
      modifies this`objects, this`saved, this`hasChanges
      ensures var s := ApplySave(old(State()), tasks, env);
              State() == s.context && outcome == s.outcome
    {
      ghost var before := objects;
      for i := 0 to |tasks|
        invariant objects == before + EntitiesOf(tasks[..i])
        invariant saved == old(saved)
        invariant hasChanges == (old(hasChanges) || i > 0)
      {
        EntitiesOfPrefixStep(tasks, i);
        objects := objects + [EntityOf(tasks[i])];
        hasChanges := true;
      }
      assert tasks[..|tasks|] == tasks;
      assert State() == Context(old(objects) + EntitiesOf(tasks), old(saved), old(hasChanges) || tasks != []);
      outcome := SaveContextIfChanged(env, true);
    }

    method PerformAdd(task: Task, env: Env) returns (outcome: Outcome)
      modifies this`objects, this`saved, this`hasChanges
      ensures var s := ApplyAdd(old(State()), task, env);
              State() == s.context && outcome == s.outcome
    {
      objects := objects + [EntityOf(task)];
      hasChanges := true;
      outcome := SaveContextIfChanged(env, true);
    }

    method PerformEdit(task: Task, newTask: Task, env: Env) returns (outcome: Outcome)
      modifies this`objects, this`saved, this`hasChanges
      ensures var s := ApplyEdit(old(State()), task, newTask, env);
              State() == s.context && outcome == s.outcome
    {
      if env.fetchError.Some? {
        return Failure(Report(env.fetchError.value, true));
      }
      match FindEntity(objects, task.id)
      case None =>
        outcome := Failure(StoreError(TaskNotFound));
      case Some(i) =>
        objects := objects[i := Overwrite(objects[i], newTask)];
        hasChanges := true;
        outcome := SaveContextIfChanged(env, true);
    }

    method PerformDelete(task: Task, env: Env) returns (outcome: Outcome)
      modifies this`objects, this`saved, this`hasChanges
      ensures var s := ApplyDelete(old(State()), task, env);
              State() == s.context && outcome == s.outcome
    {
      if env.fetchError.Some? {
        return Failure(Report(env.fetchError.value, false));
      }
      match FindEntity(objects, task.id)
      case None =>
        outcome := Failure(StoreError(TaskNotFound));
      case Some(i) =>
        objects := Removed(objects, i);
        hasChanges := true;
        outcome := SaveContextIfChanged(env, false);
    }

    method PerformToggle(task: Task, env: Env) returns (outcome: Outcome)
      modifies this`objects, this`saved, this`hasChanges
      ensures var s := ApplyToggle(old(State()), task, env);
              State() == s.context && outcome == s.outcome
    {
      if env.fetchError.Some? {
        return Failure(Report(env.fetchError.value, true));
      }
      match FindEntity(objects, task.id)
      case None =>
        outcome := Failure(StoreError(TaskNotFound));
      case Some(i) =>
        objects := objects[i := Toggled(objects[i])];
        hasChanges := true;
        outcome := SaveContextIfChanged(env, true);
    }

    /** The body of the queued closure: the operation the request names. */
    method Perform(req: Request, env: Env) returns (outcome: Outcome)
      modifies this`objects, this`saved, this`hasChanges
      ensures var s := Apply(old(State()), req, env);
              State() == s.context && outcome == s.outcome
    {
      match req {
        case Save(tasks) => outcome := PerformSave(tasks, env);
        case Add(task) => outcome := PerformAdd(task, env);
        case Edit(task, newTask) => outcome := PerformEdit(task, newTask, env);
        case Delete(task) => outcome := PerformDelete(task, env);
        case ToggleCompletion(task) => outcome := PerformToggle(task, env);
      }
    }

    /**
     * The serial queue runs its oldest operation to the end and delivers its
     * one completion; no other operation runs in between.
     */
    method RunNext(env: Env) returns (outcome: Outcome)
      requires Valid() && queue != []
      modifies this
      ensures Valid() && initial == old(initial)
      ensures executed == old(executed) + [old(queue)[0]] && queue == old(queue)[1..]
      ensures var s := Apply(old(State()), old(queue)[0], env);
              State() == s.context && outcome == s.outcome
      ensures completions == old(completions) + [outcome]
    {
      var req := queue[0];
      RunAllSnoc(initial, executed, envs, req, env);
      queue := queue[1..];
      outcome := Perform(req, env);
      completions := completions + [outcome];
      executed := executed + [req];
      envs := envs + [env];
    }

    /**
     * The queue worker drains every pending operation in submission order:
     * the final context and the completions are those of applying the
     * operations one after another.
     */
    method Drain(runEnvs: seq<Env>)
      requires Valid() && |runEnvs| == |queue|
      modifies this
      ensures Valid() && queue == [] && initial == old(initial)
      ensures executed == old(executed) + old(queue)
      ensures var r := RunAll(old(State()), old(queue), runEnvs);
              State() == r.context && completions == old(completions) + r.outcomes
    {
      ghost var start := State();
      ghost var pending := queue;
      var k := 0;
      while queue != []
        invariant Valid() && initial == old(initial)
        invariant 0 <= k <= |pending| && queue == pending[k..]
        invariant executed == old(executed) + pending[..k]
        invariant var r := RunAll(start, pending[..k], runEnvs[..k]);
                  State() == r.context && completions == old(completions) + r.outcomes
        decreases |queue|
      {
        ghost var before := RunAll(start, pending[..k], runEnvs[..k]);
        RunAllPrefixStep(start, pending, runEnvs, k);
        var outcome := RunNext(runEnvs[k]);
        assert completions == old(completions) + (before.outcomes + [outcome]);
        k := k + 1;
      }
      assert pending[..k] == pending && runEnvs[..k] == runEnvs;
    }
  }
}

/**
 * The task editor's interactor: it validates the title, builds the task to
 * submit, hands it to the data provider and turns the provider's result into
 * exactly one output callback. The current date and the freshly generated id
 * of a new task are parameters; so is the result the provider reports.
 */
module TaskEditor {

  import opened Options
  import opened Errors
  import opened Uuids
  import opened Entities
  import Store

  /** The message of the rejection; it reads "the task title cannot be empty". */
  const EmptyTitleMessage: string := "Название задачи не может быть пустым"

  /** What the interactor does with the user's input before any provider call. */
  datatype Decision = Rejected(error: Cause) | Submit(task: Task)

  /** A title passes the guard when it is present and not empty. */
  predicate IsValidTitle(title: Option<string>) {
    title.Some? && title.value != ""
  }

  /** `sendError(message:)`: the `NSError` reported for a rejected input. */
  function SendError(message: string): (e: Cause)
    ensures e.domain == "TaskEditor" && e.code == -1 && e.description == message
  {
    Cause("TaskEditor", -1, message)
  }

  /**
   * The description stored for an optional description. The interactor hands
   * its `String?` to a `String` field; an absent description is taken to be
   * the empty string, the same default `Task(from: TaskEntity)` uses.
   */
  function DescriptionText(description: Option<string>): (d: string)
    ensures description.Some? ==> d == description.value
    ensures description.None? ==> d == ""
  {
    description.GetOr("")
  }

  /** The guard and the construction in `addTask(title:description:)`. */
  function DecideAdd(title: Option<string>, description: Option<string>, freshId: Uuid, now: Date): (d: Decision)
    ensures d.Rejected? <==> !IsValidTitle(title)
    ensures d.Rejected? ==> d.error == SendError(EmptyTitleMessage)
    ensures d.Submit? ==>
      && d.task.id == freshId
      && d.task.title == title.value && d.task.title != ""
      && d.task.description == DescriptionText(description)
      && d.task.createdAt == now
      && !d.task.isCompleted
  {
    if !IsValidTitle(title) then Rejected(SendError(EmptyTitleMessage))
    else Submit(Task(freshId, title.value, DescriptionText(description), now, false))
  }

  /**
   * The guard and the construction in `edit(_:newTitle:newDescription:)`:
   * the new task keeps the original's id and completion flag and is dated now.
   */
  function DecideEdit(task: Task, newTitle: Option<string>, newDescription: Option<string>, now: Date): (d: Decision)
    ensures d.Rejected? <==> !IsValidTitle(newTitle)
    ensures d.Rejected? ==> d.error == SendError(EmptyTitleMessage)
    ensures d.Submit? ==>
      && d.task.id == task.id
      && d.task.title == newTitle.value && d.task.title != ""
      && d.task.description == DescriptionText(newDescription)
      && d.task.createdAt == now
      && d.task.isCompleted == task.isCompleted
  {
    if !IsValidTitle(newTitle) then Rejected(SendError(EmptyTitleMessage))
    else Submit(Task(task.id, newTitle.value, DescriptionText(newDescription), now, task.isCompleted))
  }

  /** A call the interactor makes on its data provider. */
  datatype ProviderCall = AddCall(task: Task) | EditCall(task: Task, newTask: Task)

  /** A call the interactor makes on its output. */
  datatype Callback = DidSaveTaskSuccessfully | DidFailToSaveTask(error: Error)

  /** What one user action causes: the provider calls and the output callbacks, in order. */
  datatype Interaction = Interaction(calls: seq<ProviderCall>, outputs: seq<Callback>)

  /** `handleResult(_:)`: success and failure map to the two callbacks, the failure keeping its error. */
  function HandleResult(result: Outcome): (cb: Callback)
    ensures result.Success? <==> cb.DidSaveTaskSuccessfully?
    ensures result.Failure? ==> cb == DidFailToSaveTask(result.error)
  {
    match result
    case Success => DidSaveTaskSuccessfully
    case Failure(e) => DidFailToSaveTask(e)
  }

  /** Distinct provider results yield distinct callbacks. */
  lemma HandleResultIsOneToOne(a: Outcome, b: Outcome)
    ensures HandleResult(a) == HandleResult(b) ==> a == b
  {
  }

  /** The failure callback of a rejected input. */
  function Rejection(e: Cause): Callback {
    DidFailToSaveTask(Framework(e))
  }

  /**
   * `addTask(title:description:)`. A missing or empty title fails without a
   * provider call; otherwise the new task goes to `provider.add` and its
   * result comes back as one callback.
   */
  function AddTask(title: Option<string>, description: Option<string>, freshId: Uuid, now: Date,
                   providerResult: Outcome): (i: Interaction)
    ensures |i.outputs| == 1
    ensures !IsValidTitle(title) ==>
      i.calls == [] && i.outputs == [Rejection(SendError(EmptyTitleMessage))]
    ensures IsValidTitle(title) ==>
      && i.calls == [AddCall(Task(freshId, title.value, DescriptionText(description), now, false))]
      && i.outputs == [HandleResult(providerResult)]
  {
    match DecideAdd(title, description, freshId, now)
    case Rejected(e) => Interaction([], [Rejection(e)])
    case Submit(t) => Interaction([AddCall(t)], [HandleResult(providerResult)])
  }

  /**
   * `edit(_:newTitle:newDescription:)`. A missing or empty title fails
   * without a provider call; otherwise the original and the rebuilt task go
   * to `provider.edit` and its result comes back as one callback.
   */
  function EditTask(task: Task, newTitle: Option<string>, newDescription: Option<string>, now: Date,
                    providerResult: Outcome): (i: Interaction)
    ensures |i.outputs| == 1
    ensures !IsValidTitle(newTitle) ==>
      i.calls == [] && i.outputs == [Rejection(SendError(EmptyTitleMessage))]
    ensures IsValidTitle(newTitle) ==>
      && i.calls == [EditCall(task, Task(task.id, newTitle.value, DescriptionText(newDescription), now, task.isCompleted))]
      && i.outputs == [HandleResult(providerResult)]
  {
    match DecideEdit(task, newTitle, newDescription, now)
    case Rejected(e) => Interaction([], [Rejection(e)])
    case Submit(t) => Interaction([EditCall(task, t)], [HandleResult(providerResult)])
  }

  /**
   * An edit the interactor submits, run by the store on an existing entity
   * (assuming a provider that forwards it to the store's `edit`),
   * keeps that entity's id and gives it a non-empty title and the edit date:
   * edits through the editor never store an empty title. The completion flag
   * becomes the one of the interactor's copy of the task, whatever the store
   * held.
   */
  lemma SubmittedEditKeepsIdentity(ctx: Store.Context, task: Task, newTitle: Option<string>,
                                   newDescription: Option<string>, now: Date, env: Store.Env)
    requires DecideEdit(task, newTitle, newDescription, now).Submit?
    requires env.fetchError.None? && Store.FindEntity(ctx.objects, task.id).Some?
    ensures var i := Store.FindEntity(ctx.objects, task.id).value;
            var newTask := DecideEdit(task, newTitle, newDescription, now).task;
            var e := Store.Apply(ctx, Store.Edit(task, newTask), env).context.objects[i];
      && e.id == ctx.objects[i].id
      && e.isCompleted == task.isCompleted
      && e.title.Some? && e.title.value != ""
      && e.createdAt == Some(now)
  {
    Store.EditOverwritesFoundEntity(ctx, task, DecideEdit(task, newTitle, newDescription, now).task, env);
  }

  /**
   * With a provider that forwards the edit to the store, the edit writes back
   * the completion flag of the interactor's copy of the task. A toggle that
   * runs after the copy was taken and before the edit is lost: the entity ends
   * with the flag it had before the toggle.
   */
  lemma StaleEditUndoesToggle(ctx: Store.Context, task: Task, newTitle: Option<string>,
                              newDescription: Option<string>, now: Date, env1: Store.Env, env2: Store.Env)
    requires DecideEdit(task, newTitle, newDescription, now).Submit?
    requires env1.fetchError.None? && env2.fetchError.None? && Store.FindEntity(ctx.objects, task.id).Some?
    requires ctx.objects[Store.FindEntity(ctx.objects, task.id).value].isCompleted == task.isCompleted
    ensures var i := Store.FindEntity(ctx.objects, task.id).value;
            var newTask := DecideEdit(task, newTitle, newDescription, now).task;
            var toggled := Store.Apply(ctx, Store.ToggleCompletion(task), env1).context;
            var edited := Store.Apply(toggled, Store.Edit(task, newTask), env2).context;
      && toggled.objects[i].isCompleted != ctx.objects[i].isCompleted
      && edited.objects[i].isCompleted == ctx.objects[i].isCompleted
  {
    var newTask := DecideEdit(task, newTitle, newDescription, now).task;
    var toggled := Store.Apply(ctx, Store.ToggleCompletion(task), env1).context;
    Store.ToggleFlipsOnlyCompletion(ctx, task, env1);
    Store.FindEntitySameIds(ctx.objects, toggled.objects, task.id);
    Store.EditOverwritesFoundEntity(toggled, task, newTask, env2);
  }

  /**
   * Assuming a provider that forwards it to the store's `add`, a task the
   * interactor submits for adding becomes one appended entity with the fresh
   * id, the non-empty title, and not completed.
   */
  lemma SubmittedAddStoresTitle(ctx: Store.Context, title: Option<string>, description: Option<string>,
                                freshId: Uuid, now: Date, env: Store.Env)
    requires DecideAdd(title, description, freshId, now).Submit?
    ensures var objs := Store.Apply(ctx, Store.Add(DecideAdd(title, description, freshId, now).task), env).context.objects;
      && |objs| == |ctx.objects| + 1
      && objs[|ctx.objects|].id == Some(freshId)
      && objs[|ctx.objects|].title == title
      && !objs[|ctx.objects|].isCompleted
  {
    Store.AddNeverDeduplicates(ctx, DecideAdd(title, description, freshId, now).task, env);
  }
}

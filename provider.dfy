/**
 * The earlier iteration of the task list's data provider. It accumulates
 * changes by the same rules as `TaskDataProvider`, and its declaration of
 * `TaskStoreUpdate` is the same type, so its contracts are stated with the
 * same definitions.
 */
module Provider {

  import opened Options
  import opened Errors
  import opened Entities
  import opened DataProvider

  class TaskProvider {

    var changes: seq<ChangeType>
    var fetchedObjects: Option<seq<TaskEntity>>
    var hasDelegate: bool
    var delivered: seq<DelegateMessage>
    ghost var batch: seq<ObjectChange>

    ghost predicate Valid()
      reads this
    {
      changes == Recorded(batch)
    }

    constructor ()
      ensures Valid() && changes == [] && batch == []
      ensures fetchedObjects == None && !hasDelegate && delivered == []
    {
      changes, fetchedObjects, hasDelegate, delivered := [], None, false, [];
      batch := [];
    }

    method SetDelegate(attached: bool)
      modifies this`hasDelegate
      ensures hasDelegate == attached
    {
      hasDelegate := attached;
    }

    /**
     * `numberOfRows`: the number of fetched objects, or 0 while there is no
     * snapshot, that is before the first successful `FetchTasks` (the lazy
     * controller's own first fetch is not modelled).
     */
    function NumberOfRows(): (n: nat)
      reads this
      ensures fetchedObjects.None? ==> n == 0
      ensures fetchedObjects.Some? ==> n == |fetchedObjects.value|
    {
      if fetchedObjects.Some? then |fetchedObjects.value| else 0
    }

    /** `fetchTasks()`: an update with no changes on success, `didFail` on error. */
    method FetchTasks(stored: seq<TaskEntity>, fetchError: Option<Cause>)
      modifies this`fetchedObjects, this`delivered
      ensures fetchError.None? ==>
        && fetchedObjects == Some(SortByCreatedAt(stored))
        && NumberOfRows() == |stored|
        && delivered == old(delivered) + Sent(hasDelegate, DidUpdate(TaskStoreUpdate([])))
      ensures fetchError.Some? ==>
        && fetchedObjects == old(fetchedObjects)
        && delivered == old(delivered) + Sent(hasDelegate, DidFail(fetchError.value))
    {
      match fetchError {
        case None =>
          fetchedObjects := Some(SortByCreatedAt(stored));
          delivered := delivered + Sent(hasDelegate, DidUpdate(TaskStoreUpdate([])));
        case Some(e) =>
          delivered := delivered + Sent(hasDelegate, DidFail(e));
      }
    }

    /** `controllerWillChangeContent(_:)`: the change list is cleared. */
    method ControllerWillChangeContent()
      modifies this`changes, this`batch
      ensures Valid() && changes == [] && batch == []
    {
      changes := [];
      batch := [];
    }

    /** `controller(_:didChange:at:for:newIndexPath:)`: at most one change joins the list. */
    method ControllerDidChange(report: ObjectChange)
      requires Valid()
      modifies this`changes, this`batch
      ensures Valid() && batch == old(batch) + [report]
      ensures changes == old(changes) + Listed(Translate(report))
    {
      var change: Option<ChangeType> := None;
      match report.kind {
        case InsertKind =>
          if report.newIndexPath.Some? {
            change := Some(Insert(report.newIndexPath.value));
          }
        case DeleteKind =>
          if report.indexPath.Some? {
            change := Some(Delete(report.indexPath.value));
          }
        case MoveKind =>
          if report.indexPath.Some? && report.newIndexPath.Some? {
            change := Some(Move(report.indexPath.value, report.newIndexPath.value));
          }
        case UpdateKind =>
          if report.indexPath.Some? {
            change := Some(Update(report.indexPath.value));
          }
        case UnknownKind(_) =>
      }
      assert change == Translate(report);
      if change.Some? {
        changes := changes + [change.value];
      }
      RecordedSnoc(batch, report);
      batch := batch + [report];
    }

    /** `controllerDidChangeContent(_:)`: the list goes to the delegate unchanged and in order. */
    method ControllerDidChangeContent()
      requires Valid()
      modifies this`delivered
      ensures delivered == old(delivered) + Sent(hasDelegate, DidUpdate(TaskStoreUpdate(Recorded(batch))))
    {
      delivered := delivered + Sent(hasDelegate, DidUpdate(TaskStoreUpdate(changes)));
    }
  }
}

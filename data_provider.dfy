/**
 * The task list's data provider: it fetches the stored tasks ordered by
 * creation date, newest first, and turns the fetched-results controller's
 * per-object change reports into one change list per batch. The controller's
 * own diffing is not modelled: the object changes it reports are inputs.
 */
module DataProvider {

  import opened Options
  import opened Errors
  import opened Entities

  /** A table position. */
  datatype IndexPath = IndexPath(section: nat, row: nat)

  /** `TaskStoreUpdate.ChangeType`. */
  datatype ChangeType =
    | Insert(path: IndexPath)
    | Delete(path: IndexPath)
    | Move(from: IndexPath, to: IndexPath)
    | Update(path: IndexPath)

  /** `TaskStoreUpdate`: an empty change list tells the list view to reload everything. */
  datatype TaskStoreUpdate = TaskStoreUpdate(changes: seq<ChangeType>)

  /** `NSFetchedResultsChangeType`, with room for values added after this code was written. */
  datatype ChangeKind = InsertKind | DeleteKind | MoveKind | UpdateKind | UnknownKind(rawValue: int)

  /** One `controller(_:didChange:at:for:newIndexPath:)` report. */
  datatype ObjectChange = ObjectChange(indexPath: Option<IndexPath>, kind: ChangeKind, newIndexPath: Option<IndexPath>)

  /** A call the provider makes on its delegate. */
  datatype DelegateMessage = DidUpdate(update: TaskStoreUpdate) | DidFail(error: Cause)

  /**
   * The change one report contributes. An insertion needs the new path,
   * a deletion and an update the old one, a move both; any other report, and
   * any report missing a path it needs, contributes nothing.
   */
  function Translate(c: ObjectChange): (r: Option<ChangeType>)
    ensures (r.Some? && r.value.Insert?) <==> (c.kind == InsertKind && c.newIndexPath.Some?)
    ensures (r.Some? && r.value.Delete?) <==> (c.kind == DeleteKind && c.indexPath.Some?)
    ensures (r.Some? && r.value.Update?) <==> (c.kind == UpdateKind && c.indexPath.Some?)
    ensures (r.Some? && r.value.Move?) <==> (c.kind == MoveKind && c.indexPath.Some? && c.newIndexPath.Some?)
    ensures r.Some? && r.value.Insert? ==> r.value.path == c.newIndexPath.value
    ensures r.Some? && (r.value.Delete? || r.value.Update?) ==> r.value.path == c.indexPath.value
    ensures r.Some? && r.value.Move? ==> r.value.from == c.indexPath.value && r.value.to == c.newIndexPath.value
  {
    match c.kind
    case InsertKind => if c.newIndexPath.Some? then Some(Insert(c.newIndexPath.value)) else None
    case DeleteKind => if c.indexPath.Some? then Some(Delete(c.indexPath.value)) else None
    case MoveKind =>
      if c.indexPath.Some? && c.newIndexPath.Some? then Some(Move(c.indexPath.value, c.newIndexPath.value)) else None
    case UpdateKind => if c.indexPath.Some? then Some(Update(c.indexPath.value)) else None
    case UnknownKind(_) => None
  }

  /** A report the controller could send for a change: translating it gives back that change. */
  function ReportFor(ch: ChangeType): (c: ObjectChange)
    ensures Translate(c) == Some(ch)
  {
    match ch
    case Insert(p) => ObjectChange(None, InsertKind, Some(p))
    case Delete(p) => ObjectChange(Some(p), DeleteKind, None)
    case Move(f, t) => ObjectChange(Some(f), MoveKind, Some(t))
    case Update(p) => ObjectChange(Some(p), UpdateKind, None)
  }

  function Listed(r: Option<ChangeType>): (s: seq<ChangeType>)
    ensures |s| <= 1
  {
    if r.Some? then [r.value] else []
  }

  /** The change list a batch of reports builds: each report's change, in arrival order. */
  function Recorded(reports: seq<ObjectChange>): (cs: seq<ChangeType>)
    ensures |cs| <= |reports|
  {
    if reports == [] then [] else Listed(Translate(reports[0])) + Recorded(reports[1..])
  }

  /** The changes of two batches in a row are the first batch's followed by the second's. */
  lemma {:induction false} RecordedAppend(a: seq<ObjectChange>, b: seq<ObjectChange>)
    ensures Recorded(a + b) == Recorded(a) + Recorded(b)
  {
    if a == [] {
      assert a + b == b;
    } else {
      assert (a + b)[1..] == a[1..] + b;
      RecordedAppend(a[1..], b);
    }
  }

  /** One more report adds its own change, if any, at the end of the list. */
  lemma RecordedSnoc(a: seq<ObjectChange>, c: ObjectChange)
    ensures Recorded(a + [c]) == Recorded(a) + Listed(Translate(c))
  {
    RecordedAppend(a, [c]);
    assert [c][1..] == [];
  }

  /** A batch of reports each made for a change records exactly those changes, in order. */
  lemma {:induction false} RecordedReports(chs: seq<ChangeType>)
    ensures Recorded(seq(|chs|, i requires 0 <= i < |chs| => ReportFor(chs[i]))) == chs
  {
    var reports := seq(|chs|, i requires 0 <= i < |chs| => ReportFor(chs[i]));
    if chs != [] {
      var tail := seq(|chs| - 1, i requires 0 <= i < |chs| - 1 => ReportFor(chs[1..][i]));
      assert reports[1..] == tail;
      RecordedReports(chs[1..]);
    }
  }

  // ---------------------------------------------------------------------------
  // The fetch order: `createdAt` descending.

  /**
   * `a` sorts before or level with `b` under `createdAt` descending; an
   * entity without a date sorts after every dated one, as Core Data's SQLite
   * store orders a missing value below every present one.
   */
  predicate NewerOrSame(a: Option<Date>, b: Option<Date>) {
    match a
    case None => b.None?
    case Some(x) => b.None? || x >= b.value
  }

  predicate NewestFirst(s: seq<TaskEntity>) {
    forall i, j :: 0 <= i < j < |s| ==> NewerOrSame(s[i].createdAt, s[j].createdAt)
  }

  /** Places one entity before the first entity it is newer than or level with. */
  function InsertByDate(e: TaskEntity, s: seq<TaskEntity>): (r: seq<TaskEntity>)
    ensures multiset(r) == multiset(s) + multiset{e}
    ensures |r| == |s| + 1
  {
    if s == [] then [e]
    else if NewerOrSame(e.createdAt, s[0].createdAt) then [e] + s
    else
      assert s == [s[0]] + s[1..];
      [s[0]] + InsertByDate(e, s[1..])
  }

  /** Inserting into a newest-first list keeps it newest first. */
  lemma {:induction false} InsertByDateKeepsOrder(e: TaskEntity, s: seq<TaskEntity>)
    requires NewestFirst(s)
    ensures NewestFirst(InsertByDate(e, s))
  {
    if s != [] && !NewerOrSame(e.createdAt, s[0].createdAt) {
      var rest := InsertByDate(e, s[1..]);
      InsertByDateKeepsOrder(e, s[1..]);
      forall k | 0 <= k < |rest|
        ensures NewerOrSame(s[0].createdAt, rest[k].createdAt)
      {
        assert rest[k] in multiset(rest);
        if rest[k] != e {
          assert rest[k] in multiset(s[1..]);
          var j :| 0 <= j < |s[1..]| && s[1..][j] == rest[k];
          assert s[j + 1] == rest[k];
        }
      }
      assert NewestFirst([s[0]] + rest);
    }
  }

  /** The fetched snapshot: the stored entities, newest first, none lost and none added. */
  function SortByCreatedAt(s: seq<TaskEntity>): (r: seq<TaskEntity>)
    ensures NewestFirst(r)
    ensures multiset(r) == multiset(s)
    ensures |r| == |s|
  {
    if s == [] then []
    else
      assert s == [s[0]] + s[1..];
      InsertByDateKeepsOrder(s[0], SortByCreatedAt(s[1..]));
      InsertByDate(s[0], SortByCreatedAt(s[1..]))
  }

  /** What the provider sends its weakly held delegate: nothing when no delegate is set. */
  function Sent(hasDelegate: bool, m: DelegateMessage): seq<DelegateMessage> {
    if hasDelegate then [m] else []
  }

  class TaskDataProvider {

    /** `changes`: the change list of the batch in progress. */
    var changes: seq<ChangeType>
    /** The controller's `fetchedObjects`: nil until a fetch succeeds. */
    var fetchedObjects: Option<seq<TaskEntity>>
    var hasDelegate: bool
    /** Every message sent to the delegate so far, in order. */
    var delivered: seq<DelegateMessage>
    /** The reports received since the batch began. */
    ghost var batch: seq<ObjectChange>

    ghost predicate Valid()
      reads this
    {
      changes == Recorded(batch)
    }

    constructor ()
      ensures Valid() && changes == [] && batch == []
      ensures fetchedObjects == None && !hasDelegate && delivered == []
    {
      changes, fetchedObjects, hasDelegate, delivered := [], None, false, [];
      batch := [];
    }

    method SetDelegate(attached: bool)
      modifies this`hasDelegate
      ensures hasDelegate == attached
    {
      hasDelegate := attached;
    }

    /**
     * `numberOfRows`: the number of fetched objects, or 0 while there is no
     * snapshot, that is before the first successful `FetchTasks` (the lazy
     * controller's own first fetch is not modelled).
     */
    function NumberOfRows(): (n: nat)
      reads this
      ensures fetchedObjects.None? ==> n == 0
      ensures fetchedObjects.Some? ==> n == |fetchedObjects.value|
    {
      match fetchedObjects
      case None => 0
      case Some(objects) => |objects|
    }

    /**
     * `fetchTasks()`: `stored` is what the context holds. On success the
     * snapshot is the stored entities newest first and the delegate gets an
     * update with no changes, which it takes as a full reload; on failure the
     * delegate gets the error and no update.
     */
    method FetchTasks(stored: seq<TaskEntity>, fetchError: Option<Cause>)
      modifies this`fetchedObjects, this`delivered
      ensures fetchError.None? ==>
        && fetchedObjects == Some(SortByCreatedAt(stored))
        && NumberOfRows() == |stored|
        && delivered == old(delivered) + Sent(hasDelegate, DidUpdate(TaskStoreUpdate([])))
      ensures fetchError.Some? ==>
        && fetchedObjects == old(fetchedObjects)
        && delivered == old(delivered) + Sent(hasDelegate, DidFail(fetchError.value))
    {
      if fetchError.None? {
        fetchedObjects := Some(SortByCreatedAt(stored));
        delivered := delivered + Sent(hasDelegate, DidUpdate(TaskStoreUpdate([])));
      } else {
        delivered := delivered + Sent(hasDelegate, DidFail(fetchError.value));
      }
    }

    /** `controllerWillChangeContent(_:)`: a new batch starts with an empty change list. */
    method ControllerWillChangeContent()
      modifies this`changes, this`batch
      ensures Valid() && changes == [] && batch == []
    {
      changes := [];
      batch := [];
    }

    /** `controller(_:didChange:at:for:newIndexPath:)`: the report's change, if any, joins the list. */
    method ControllerDidChange(report: ObjectChange)
      requires Valid()
      modifies this`changes, this`batch
      ensures Valid() && batch == old(batch) + [report]
      ensures changes == old(changes) + Listed(Translate(report))
    {
      match report.kind {
        case InsertKind =>
          if report.newIndexPath.Some? {
            changes := changes + [Insert(report.newIndexPath.value)];
          }
        case DeleteKind =>
          if report.indexPath.Some? {
            changes := changes + [Delete(report.indexPath.value)];
          }
        case MoveKind =>
          if report.indexPath.Some? && report.newIndexPath.Some? {
            changes := changes + [Move(report.indexPath.value, report.newIndexPath.value)];
          }
        case UpdateKind =>
          if report.indexPath.Some? {
            changes := changes + [Update(report.indexPath.value)];
          }
        case UnknownKind(_) =>
      }
      RecordedSnoc(batch, report);
      batch := batch + [report];
    }

    /** `controllerDidChangeContent(_:)`: the delegate gets the batch's changes, in arrival order. */
    method ControllerDidChangeContent()
      requires Valid()
      modifies this`delivered
      ensures delivered == old(delivered) + Sent(hasDelegate, DidUpdate(TaskStoreUpdate(Recorded(batch))))
    {
      delivered := delivered + Sent(hasDelegate, DidUpdate(TaskStoreUpdate(changes)));
    }
  }
}

/**
 * The task record and the two mappings that build one: from an item of the
 * remote to-do list and from a stored Core Data entity. `Date()` and `UUID()`
 * are not computed here: the current date and a freshly generated id are
 * parameters. Dates are whole numbers of some fixed unit.
 */
module Entities {

  import opened Options
  import opened Uuids

  type Date = int

  /** The `Task` value; its datatype constructor is the memberwise initializer. */
  datatype Task = Task(id: Uuid, title: string, description: string, createdAt: Date, isCompleted: bool)

  /** Swift's `Int` on a 64-bit device. */
  type Int64 = x: int | -0x8000_0000_0000_0000 <= x < 0x8000_0000_0000_0000

  /** One decoded item of the remote list (`RemoteTask`). */
  datatype RemoteTask = RemoteTask(id: Int64, todo: string, completed: bool, userId: Int64)

  /**
   * The stored `TaskEntity`. Core Data generates its attributes as optionals,
   * except the Boolean `isCompleted`.
   */
  datatype TaskEntity = TaskEntity(
    id: Option<Uuid>,
    title: Option<string>,
    descriptionText: Option<string>,
    createdAt: Option<Date>,
    isCompleted: bool)

  /**
   * `Task(from: RemoteTask)`. The id is the UUID that the decimal text of the
   * remote id spells, else a fresh one; since decimal text never has the
   * RFC 4122 form, the fresh id is always the one taken.
   */
  function FromRemote(remote: RemoteTask, freshId: Uuid, now: Date): (t: Task)
    ensures t.id == freshId
    ensures t.title == remote.todo && t.description == remote.todo
    ensures t.createdAt == now
    ensures t.isCompleted == remote.completed
  {
    DecimalTextIsNeverUuid(remote.id);
    Task(ParseUuid(DecimalText(remote.id)).GetOr(freshId), remote.todo, remote.todo, now, remote.completed)
  }

  /**
   * As written, the id of an imported item does not depend on the item: the
   * same remote item (remote id 1, say, whose text "1" is no UUID) imported
   * with two different fresh ids gets two different ids.
   */
  lemma RemoteIdIsDiscarded(remote: RemoteTask, id1: Uuid, id2: Uuid, now: Date)
    requires id1 != id2
    ensures FromRemote(remote, id1, now).id != FromRemote(remote, id2, now).id
    ensures ParseUuid(DecimalText(1)) == None
  {
    DecimalTextIsNeverUuid(1);
  }

  function Pow16(k: nat): (p: nat)
    ensures p > 0
  {
    if k == 0 then 1 else 16 * Pow16(k - 1)
  }

  /** The last `len` hexadecimal digits of `n`, most significant first. */
  function HexDigitsOf(n: nat, len: nat): (ds: seq<Nibble>)
    ensures |ds| == len
  {
    if len == 0 then [] else HexDigitsOf(n / 16, len - 1) + [n % 16]
  }

  /** The number that hexadecimal digits spell. */
  function HexNumber(ds: seq<Nibble>): nat {
    if ds == [] then 0 else 16 * HexNumber(ds[..|ds| - 1]) + ds[|ds| - 1]
  }

  lemma {:induction false} HexDigitsOfRoundTrip(n: nat, len: nat)
    requires n < Pow16(len)
    ensures HexNumber(HexDigitsOf(n, len)) == n
  {
    if len > 0 {
      var p := Pow16(len - 1);
      assert n / 16 < p by {
        assert n < 16 * p;
      }
      var ds := HexDigitsOf(n, len);
      assert ds[..|ds| - 1] == HexDigitsOf(n / 16, len - 1);
      assert ds[|ds| - 1] == n % 16;
      HexDigitsOfRoundTrip(n / 16, len - 1);
      assert HexNumber(ds) == 16 * (n / 16) + n % 16;
    }
  }

  lemma Pow16Is2To64()
    ensures Pow16(16) == 0x1_0000_0000_0000_0000
  {
    assert Pow16(4) == 0x1_0000;
    assert Pow16(8) == 0x1_0000_0000;
    assert Pow16(12) == 0x1_0000_0000_0000;
  }

  /** The two's-complement bit pattern of a 64-bit integer. */
  function BitPattern(id: Int64): (n: nat)
    ensures n < Pow16(16)
  {
    Pow16Is2To64();
    if id >= 0 then id else id + 0x1_0000_0000_0000_0000
  }

  /**
   * A UUID derived from a remote id: sixteen zero digits followed by the
   * sixteen hexadecimal digits of the id's 64-bit pattern.
   */
  function RemoteUuid(id: Int64): Uuid {
    Uuid(seq(16, _ => 0) + HexDigitsOf(BitPattern(id), 16))
  }

  /** Distinct remote ids give distinct UUIDs. */
  lemma RemoteUuidIsInjective(a: Int64, b: Int64)
    ensures RemoteUuid(a) == RemoteUuid(b) <==> a == b
  {
    if RemoteUuid(a) == RemoteUuid(b) {
      var low := HexDigitsOf(BitPattern(a), 16);
      var lowOther := HexDigitsOf(BitPattern(b), 16);
      assert low == RemoteUuid(a).digits[16..];
      assert lowOther == RemoteUuid(b).digits[16..];
      HexDigitsOfRoundTrip(BitPattern(a), 16);
      HexDigitsOfRoundTrip(BitPattern(b), 16);
    }
  }

  /** The import with the identifier derived from the remote one. */
  function FromRemoteDeterministic(remote: RemoteTask, now: Date): (t: Task)
    ensures t.id == RemoteUuid(remote.id)
    ensures t.title == remote.todo && t.description == remote.todo
    ensures t.createdAt == now && t.isCompleted == remote.completed
  {
    Task(RemoteUuid(remote.id), remote.todo, remote.todo, now, remote.completed)
  }

  /** With the derived id, importing the same item again gives the same id and distinct items get distinct ids. */
  lemma DeterministicImportIds(r1: RemoteTask, r2: RemoteTask, now1: Date, now2: Date)
    ensures FromRemoteDeterministic(r1, now1).id == FromRemoteDeterministic(r2, now2).id <==> r1.id == r2.id
  {
    RemoteUuidIsInjective(r1.id, r2.id);
  }

  /**
   * `Task(from: TaskEntity)`: present attributes are copied, a missing id is
   * replaced by a fresh one, a missing title or description by the empty
   * string and a missing creation date by the current date.
   */
  function FromEntity(entity: TaskEntity, freshId: Uuid, now: Date): (t: Task)
    ensures entity.id.Some? ==> t.id == entity.id.value
    ensures entity.id.None? ==> t.id == freshId
    ensures entity.title.Some? ==> t.title == entity.title.value
    ensures entity.title.None? ==> t.title == ""
    ensures entity.descriptionText.Some? ==> t.description == entity.descriptionText.value
    ensures entity.descriptionText.None? ==> t.description == ""
    ensures entity.createdAt.Some? ==> t.createdAt == entity.createdAt.value
    ensures entity.createdAt.None? ==> t.createdAt == now
    ensures t.isCompleted == entity.isCompleted
  {
    Task(
      entity.id.GetOr(freshId),
      entity.title.GetOr(""),
      entity.descriptionText.GetOr(""),
      entity.createdAt.GetOr(now),
      entity.isCompleted)
  }

  /**
   * The entity the store writes for a task: every attribute set from the
   * task's field. Reading it back gives the task, whatever fresh id and date
   * the reader would have used for missing attributes.
   */
  function EntityOf(t: Task): (e: TaskEntity)
    ensures e.id == Some(t.id) && e.isCompleted == t.isCompleted
    ensures e.title == Some(t.title) && e.descriptionText == Some(t.description) && e.createdAt == Some(t.createdAt)
    ensures forall freshId, now :: FromEntity(e, freshId, now) == t
  {
    TaskEntity(Some(t.id), Some(t.title), Some(t.description), Some(t.createdAt), t.isCompleted)
  }

  /** Reading an entity whose attributes are all present and writing it again gives the same entity. */
  lemma EntityRoundTrip(e: TaskEntity, freshId: Uuid, now: Date)
    requires e.id.Some? && e.title.Some? && e.descriptionText.Some? && e.createdAt.Some?
    ensures EntityOf(FromEntity(e, freshId, now)) == e
  {
  }
}

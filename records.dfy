/** The records of the four synchronised collections (Project, Task, User,
    StudentProfile), the client payloads that create or change them, and what
    Django's `save()` does to their timestamps. */
module Records {

  /** Record identifiers (UUIDs in the database), as opaque text. */
  type Id = string

  datatype Option<+T> = None | Some(value: T)

  /** Whether a key occurs in a client payload. `Present(None)` is a key sent
      with a null value, which is not the same as an `Absent` key. */
  datatype Field<+T> = Absent | Present(value: T)

  /** The foreign-key column of a collection, if it has one. */
  datatype FkRule = NoFk | Fk(nullable: bool)

  /** What a collection's serializer lets a client write: the scalar fields it
      declares as writable, its foreign key, and whether it exposes `deleted_at`. */
  datatype Schema = Schema(model: string, writable: set<string>, fk: FkRule, deletedAtWritable: bool)

  /** A stored row. Timestamps are milliseconds; `deletedAt == None` means live. */
  datatype Record = Record(
    id: Id,
    fields: map<string, string>,
    fk: Option<Id>,
    createdAt: int,
    updatedAt: int,
    deletedAt: Option<int>)

  /** One item of a push: its id, the scalar keys it carries, and whether it
      carries the foreign-key key and the `deleted_at` key. */
  datatype Payload = Payload(
    id: Id,
    fields: map<string, string>,
    fk: Field<Option<Id>>,
    deletedAt: Field<Option<int>>)

  /** The scalar fields of a payload that its serializer writes. */
  function Written(s: Schema, p: Payload): map<string, string> {
    map f | f in p.fields && f in s.writable :: p.fields[f]
  }

  /** A row inserted at `now`: `auto_now_add` and `auto_now` both take the clock. */
  function NewRecord(s: Schema, p: Payload, now: int): Record {
    Record(
      p.id,
      Written(s, p),
      if s.fk.Fk? && p.fk.Present? then p.fk.value else None,
      now,
      now,
      if s.deletedAtWritable && p.deletedAt.Present? then p.deletedAt.value else None)
  }

  /** `save()` on an existing row: `auto_now` refreshes `updated_at`. */
  function Saved(r: Record, now: int): Record {
    r.(updatedAt := now)
  }

  /** A partial update through the serializer (`partial=True`), then `save()`. */
  function Patched(s: Schema, r: Record, p: Payload, now: int): (r': Record)
    ensures r'.id == r.id && r'.createdAt == r.createdAt && r'.updatedAt == now
    ensures forall f :: f in r'.fields <==> f in r.fields || (f in p.fields && f in s.writable)
    ensures forall f | f in r'.fields ::
      r'.fields[f] == if f in p.fields && f in s.writable then p.fields[f] else r.fields[f]
    ensures p.fk.Absent? || s.fk.NoFk? ==> r'.fk == r.fk
    ensures s.fk.Fk? && p.fk.Present? ==> r'.fk == p.fk.value
    ensures p.deletedAt.Absent? || !s.deletedAtWritable ==> r'.deletedAt == r.deletedAt
    ensures s.deletedAtWritable && p.deletedAt.Present? ==> r'.deletedAt == p.deletedAt.value
  {
    Saved(r.(fields := r.fields + Written(s, p),
             fk := if s.fk.Fk? && p.fk.Present? then p.fk.value else r.fk,
             deletedAt := if s.deletedAtWritable && p.deletedAt.Present? then p.deletedAt.value else r.deletedAt),
          now)
  }

  /** A soft delete: `deleted_at` takes the clock, then `save()`. */
  function Tombstoned(r: Record, now: int): Record {
    Saved(r.(deletedAt := Some(now)), now)
  }

  /** One row is stored under its own id, was created no later than its last
      save, which is no later than `now`; it has a foreign key only if its
      schema does, pointing into `targets`, and always has one where the
      column is not nullable; and where clients cannot write `deleted_at`, a
      tombstone was stamped no later than the last save. */
  ghost predicate RecordConsistent(s: Schema, k: Id, r: Record, targets: set<Id>, now: int) {
    && r.id == k
    && r.createdAt <= r.updatedAt <= now
    && (r.fk.Some? ==> s.fk.Fk? && r.fk.value in targets)
    && (s.fk == Fk(false) ==> r.fk.Some?)
    && (!s.deletedAtWritable && r.deletedAt.Some? ==> r.deletedAt.value <= r.updatedAt)
  }

  ghost predicate Consistent(s: Schema, m: map<Id, Record>, targets: set<Id>, now: int) {
    forall k | k in m :: RecordConsistent(s, k, m[k], targets, now)
  }

  /** Consistency survives a later clock and a larger set of targets. */
  lemma ConsistentLater(s: Schema, m: map<Id, Record>, targets: set<Id>, targets': set<Id>, now: int, now': int)
    requires Consistent(s, m, targets, now)
    requires targets <= targets' && now <= now'
    ensures Consistent(s, m, targets', now')
  {
  }
}

/** Pull: the three-way delta (created / updated / deleted) that both sync
    views compute for each collection from the client's last-pulled cursor. */
module Delta {
  import opened Records

  /** The client's `last_pulled_at` in milliseconds, or `Snapshot` when none
      was sent: the minimum datetime, earlier than every stored timestamp. */
  datatype Cursor = Snapshot | Since(ms: int)

  /** A timestamp lies strictly after the cursor (`__gt`). */
  predicate After(t: int, c: Cursor) {
    c.Snapshot? || t > c.ms
  }

  /** `created_at__gt=cursor, deleted_at__isnull=True` */
  predicate IsCreated(r: Record, c: Cursor) {
    After(r.createdAt, c) && r.deletedAt.None?
  }

  /** `updated_at__gt=cursor, created_at__lte=cursor, deleted_at__isnull=True` */
  predicate IsUpdated(r: Record, c: Cursor) {
    After(r.updatedAt, c) && !After(r.createdAt, c) && r.deletedAt.None?
  }

  /** `deleted_at__gt=cursor`; a null `deleted_at` never matches. */
  predicate IsDeleted(r: Record, c: Cursor) {
    r.deletedAt.Some? && After(r.deletedAt.value, c)
  }

  /** One collection's part of a pull response: full records for the first two
      buckets, bare ids for the third. */
  datatype Changes = Changes(created: map<Id, Record>, updated: map<Id, Record>, deleted: set<Id>)

  /** The three buckets are pairwise disjoint. */
  ghost predicate Disjoint(d: Changes) {
    && d.created.Keys !! d.updated.Keys
    && d.created.Keys !! d.deleted
    && d.updated.Keys !! d.deleted
  }

  /** Every reported record is the stored one, under its stored id. */
  ghost predicate DrawnFrom(d: Changes, m: map<Id, Record>) {
    && (forall k | k in d.created :: k in m && d.created[k] == m[k])
    && (forall k | k in d.updated :: k in m && d.updated[k] == m[k])
    && d.deleted <= m.Keys
  }

  function Classify(m: map<Id, Record>, c: Cursor): (d: Changes)
    ensures Disjoint(d) && DrawnFrom(d, m)
  {
    Changes(
      map k | k in m && IsCreated(m[k], c) :: m[k],
      map k | k in m && IsUpdated(m[k], c) :: m[k],
      set k | k in m && IsDeleted(m[k], c))
  }

  /** The live records of a collection, and the ids of its tombstones. */
  function Live(m: map<Id, Record>): map<Id, Record> {
    map k | k in m && m[k].deletedAt.None? :: m[k]
  }

  function Tombstones(m: map<Id, Record>): set<Id> {
    set k | k in m && m[k].deletedAt.Some?
  }

  /** With no cursor every live record is "created", nothing is "updated", and
      every tombstone's id is "deleted". */
  lemma SnapshotPull(m: map<Id, Record>)
    ensures Classify(m, Snapshot) == Changes(Live(m), map[], Tombstones(m))
  {
    var d := Classify(m, Snapshot);
    assert d.created == Live(m);
    assert d.updated == map[];
    assert d.deleted == Tombstones(m);
  }

  /** Given `created_at <= updated_at`, a live record is reported (as created or
      as updated) exactly when it was saved after the cursor, and a tombstone is
      reported exactly when it was deleted after the cursor. */
  lemma ReportedIffChanged(m: map<Id, Record>, c: Cursor, k: Id)
    requires k in m && m[k].createdAt <= m[k].updatedAt
    ensures m[k].deletedAt.None? ==>
      (k in Classify(m, c).created || k in Classify(m, c).updated <==> After(m[k].updatedAt, c))
    ensures m[k].deletedAt.None? ==> k !in Classify(m, c).deleted
    ensures m[k].deletedAt.Some? ==>
      k !in Classify(m, c).created && k !in Classify(m, c).updated &&
      (k in Classify(m, c).deleted <==> After(m[k].deletedAt.value, c))
  {
  }

  /** A client that pulls with a cursor no earlier than the last save of a
      consistent collection receives no created and no updated records; where
      only the server stamps `deleted_at`, it receives no deleted ids either. */
  lemma CaughtUp(s: Schema, m: map<Id, Record>, targets: set<Id>, now: int, cursor: int)
    requires Consistent(s, m, targets, now) && now <= cursor
    ensures Classify(m, Since(cursor)).created == map[]
    ensures Classify(m, Since(cursor)).updated == map[]
    ensures !s.deletedAtWritable ==> Classify(m, Since(cursor)).deleted == {}
  {
    var d := Classify(m, Since(cursor));
    forall k | k in m
      ensures !IsCreated(m[k], Since(cursor)) && !IsUpdated(m[k], Since(cursor))
      ensures !s.deletedAtWritable ==> !IsDeleted(m[k], Since(cursor))
    {
      assert RecordConsistent(s, k, m[k], targets, now);
    }
    assert d.created == map[];
    assert d.updated == map[];
    if !s.deletedAtWritable {
      assert d.deleted == {};
    }
  }
}

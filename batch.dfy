/** Push: the phases both sync views run over a batch (bare creation, foreign-key
    linkage, partial updates, soft deletes), each as a fold over the items in
    list order that threads the collection and appends at most one error per
    item. The views' loops are proved equal to these folds. */
module Batch {
  import opened Records

  datatype ErrorKind =
    | CreationFailed    // "<Model> creation failed for ID <id>: ..."
    | LinkFailed        // "Failed to set <fk> for <model> <id>: ..."
    | UpdateFailed      // "Update failed for <Model> <id>: ..."
    | DoesNotExist      // "<Model> <id> does not exist"
    | UnexpectedUpdate  // "Unexpected error updating <Model> <id>: ..."
    | UnexpectedDelete  // "Unexpected error deleting <Model> <id>: ..."

  /** One entry of the `errors` list: its kind, the model it names and the id. */
  datatype SyncError = SyncError(kind: ErrorKind, model: string, id: Id)

  /** The serializers' field validation, left abstract: whether a payload may
      create a record of a schema, and whether it may partially update one. */
  datatype Serializers = Serializers(creatable: (Schema, Payload) -> bool, updatable: (Schema, Payload) -> bool)

  /** One collection's part of a push request; a missing key is an empty list. */
  datatype ChangeSet = ChangeSet(created: seq<Payload>, updated: seq<Payload>, deleted: seq<Id>)

  /** A collection and the errors a phase appended for it. */
  datatype Outcome = Outcome(records: map<Id, Record>, errors: seq<SyncError>)

  ghost predicate DistinctIds(items: seq<Payload>) {
    forall i, j | 0 <= i < j < |items| :: items[i].id != items[j].id
  }

  // ---------------------------------------------------------------------------
  // Phase 1: bare creation

  /** The payload handed to the serializer on creation: the foreign-key key is
      removed for every collection that has one. */
  function CreationPayload(s: Schema, p: Payload): Payload {
    if s.fk.Fk? then p.(fk := Absent) else p
  }

  /** The serializer accepts the payload, and its id is not taken (the primary
      key's uniqueness check counts tombstones too). */
  predicate CanCreate(s: Schema, m: map<Id, Record>, p: Payload, v: Serializers) {
    v.creatable(s, CreationPayload(s, p)) && p.id !in m
  }

  /** DRF makes the related field of a non-nullable foreign key required, so
      the serializer refuses a creation payload without that key. */
  ghost predicate RequiresFk(s: Schema, v: Serializers) {
    s.fk == Fk(false) ==> forall q :: v.creatable(s, q) ==> q.fk.Present?
  }

  function CreateStep(s: Schema, o: Outcome, p: Payload, now: int, v: Serializers): Outcome {
    if CanCreate(s, o.records, p, v) then
      Outcome(o.records[p.id := NewRecord(s, CreationPayload(s, p), now)], o.errors)
    else
      Outcome(o.records, o.errors + [SyncError(CreationFailed, s.model, p.id)])
  }

  function CreatePhase(s: Schema, m: map<Id, Record>, items: seq<Payload>, now: int, v: Serializers): (o: Outcome)
    ensures m.Keys <= o.records.Keys
    ensures |o.errors| <= |items|
  {
    if items == [] then Outcome(m, [])
    else CreateStep(s, CreatePhase(s, m, items[..|items| - 1], now, v), items[|items| - 1], now, v)
  }

  /** The ids the serializer accepts on creation. */
  function AcceptedIds(s: Schema, items: seq<Payload>, v: Serializers): set<Id> {
    set p | p in items && v.creatable(s, CreationPayload(s, p)) :: p.id
  }

  lemma {:induction false} CreatePhaseKeys(s: Schema, m: map<Id, Record>, items: seq<Payload>, now: int, v: Serializers)
    ensures CreatePhase(s, m, items, now, v).records.Keys == m.Keys + AcceptedIds(s, items, v)
  {
    if items != [] {
      var init, p := items[..|items| - 1], items[|items| - 1];
      CreatePhaseKeys(s, m, init, now, v);
      assert items == init + [p];
      assert AcceptedIds(s, items, v)
        == AcceptedIds(s, init, v) + (if v.creatable(s, CreationPayload(s, p)) then {p.id} else {});
    }
  }

  /** Creation never overwrites a stored row; every row it adds is a bare row
      built at `now` from an item with that id, with no foreign key set. */
  lemma {:induction false} CreatePhaseBare(s: Schema, m: map<Id, Record>, items: seq<Payload>, now: int, v: Serializers)
    ensures var o := CreatePhase(s, m, items, now, v);
      && (forall k | k in m :: o.records[k] == m[k])
      && (forall k | k in o.records && k !in m ::
            && o.records[k].fk == None
            && (exists p | p in items && p.id == k :: o.records[k] == NewRecord(s, CreationPayload(s, p), now)))
  {
    if items != [] {
      var init, p := items[..|items| - 1], items[|items| - 1];
      CreatePhaseBare(s, m, init, now, v);
      assert items == init + [p];
    }
  }

  function ErrorIds(es: seq<SyncError>): seq<Id> {
    if es == [] then [] else ErrorIds(es[..|es| - 1]) + [es[|es| - 1].id]
  }

  function PayloadIds(items: seq<Payload>): seq<Id> {
    if items == [] then [] else PayloadIds(items[..|items| - 1]) + [items[|items| - 1].id]
  }

  lemma {:induction false} ErrorIdsAppend(es: seq<SyncError>, e: SyncError)
    ensures ErrorIds(es + [e]) == ErrorIds(es) + [e.id]
  {
    assert (es + [e])[..|es + [e]| - 1] == es;
  }

  /** The creation error an item raises: the serializer rejects its payload,
      or its id is taken, by a stored row or by an earlier accepted item. */
  function CreateFailures(s: Schema, keys: set<Id>, items: seq<Payload>, v: Serializers): seq<SyncError> {
    if items == [] then []
    else
      var init, p := items[..|items| - 1], items[|items| - 1];
      CreateFailures(s, keys, init, v)
        + if v.creatable(s, CreationPayload(s, p)) && p.id !in keys + AcceptedIds(s, init, v) then []
          else [SyncError(CreationFailed, s.model, p.id)]
  }

  /** Creation reports exactly one error per item that is rejected or whose id
      is taken, in list order, and none for the others. */
  lemma {:induction false} CreatePhaseFailures(s: Schema, m: map<Id, Record>, items: seq<Payload>, now: int,
                                               v: Serializers)
    ensures CreatePhase(s, m, items, now, v).errors == CreateFailures(s, m.Keys, items, v)
  {
    if items != [] {
      var init, p := items[..|items| - 1], items[|items| - 1];
      CreatePhaseFailures(s, m, init, now, v);
      CreatePhaseKeys(s, m, init, now, v);
      var o := CreatePhase(s, m, init, now, v);
      assert CanCreate(s, o.records, p, v)
        <==> v.creatable(s, CreationPayload(s, p)) && p.id !in m.Keys + AcceptedIds(s, init, v);
    }
  }

  /** Every creation error is a creation failure of this model, and no item is
      named by more errors than it occurs in the list. */
  lemma {:induction false} CreatePhaseErrors(s: Schema, m: map<Id, Record>, items: seq<Payload>, now: int, v: Serializers)
    ensures var o := CreatePhase(s, m, items, now, v);
      && (forall e | e in o.errors :: e.kind == CreationFailed && e.model == s.model)
      && multiset(ErrorIds(o.errors)) <= multiset(PayloadIds(items))
  {
    if items != [] {
      var init, p := items[..|items| - 1], items[|items| - 1];
      CreatePhaseErrors(s, m, init, now, v);
      var o := CreatePhase(s, m, init, now, v);
      if !CanCreate(s, o.records, p, v) {
        ErrorIdsAppend(o.errors, SyncError(CreationFailed, s.model, p.id));
      }
    }
  }

  /** With one item per id, items the serializer accepts and whose ids are
      free create their rows without any error. */
  lemma {:induction false} CreateFailuresNone(s: Schema, keys: set<Id>, items: seq<Payload>, v: Serializers)
    requires DistinctIds(items)
    requires forall p | p in items :: v.creatable(s, CreationPayload(s, p)) && p.id !in keys
    ensures CreateFailures(s, keys, items, v) == []
  {
    if items != [] {
      var init, p := items[..|items| - 1], items[|items| - 1];
      assert forall q | q in init :: q in items;
      assert DistinctIds(init);
      CreateFailuresNone(s, keys, init, v);
      assert p in items;
      assert p.id !in AcceptedIds(s, init, v) by {
        forall q | q in init
          ensures q.id != p.id
        {
          var i :| 0 <= i < |init| && init[i] == q;
          assert items[i] == q && items[|items| - 1] == p;
        }
      }
    }
  }

  /** When the serializer rejects every item, nothing is created and each item
      reports exactly one creation error, in list order. */
  lemma {:induction false} CreatePhaseRejected(s: Schema, m: map<Id, Record>, items: seq<Payload>, now: int,
                                               v: Serializers)
    requires forall p | p in items :: !v.creatable(s, CreationPayload(s, p))
    ensures var o := CreatePhase(s, m, items, now, v);
      && o.records == m
      && ErrorIds(o.errors) == PayloadIds(items)
      && (forall e | e in o.errors :: e.kind == CreationFailed && e.model == s.model)
  {
    if items != [] {
      var init, p := items[..|items| - 1], items[|items| - 1];
      assert forall q | q in init :: q in items;
      CreatePhaseRejected(s, m, init, now, v);
      var o := CreatePhase(s, m, init, now, v);
      assert !CanCreate(s, o.records, p, v) by { assert p in items; }
      var e := SyncError(CreationFailed, s.model, p.id);
      assert CreatePhase(s, m, items, now, v) == Outcome(o.records, o.errors + [e]);
      ErrorIdsAppend(o.errors, e);
      assert PayloadIds(items) == PayloadIds(init) + [p.id];
    }
  }

  lemma {:induction false} CreatePhaseConsistent(s: Schema, m: map<Id, Record>, targets: set<Id>, items: seq<Payload>,
                                                 before: int, now: int, v: Serializers)
    requires Consistent(s, m, targets, before) && before <= now && RequiresFk(s, v)
    ensures Consistent(s, CreatePhase(s, m, items, now, v).records, targets, now)
  {
    if items == [] {
      ConsistentLater(s, m, targets, targets, before, now);
    } else {
      CreatePhaseConsistent(s, m, targets, items[..|items| - 1], before, now, v);
    }
  }

  // ---------------------------------------------------------------------------
  // Phase 2: foreign-key linkage

  /** Both the item's own row and the row its foreign-key value names exist. */
  predicate Resolves(owners: set<Id>, targets: set<Id>, p: Payload)
    requires p.fk.Present?
  {
    p.id in owners && p.fk.value.Some? && p.fk.value.value in targets
  }

  /** Runs only for items that carry the foreign-key key; `get(id=None)` finds nothing. */
  function LinkStep(s: Schema, o: Outcome, targets: set<Id>, p: Payload, now: int): Outcome {
    if p.fk.Absent? then o
    else if Resolves(o.records.Keys, targets, p) then
      Outcome(o.records[p.id := Saved(o.records[p.id].(fk := p.fk.value), now)], o.errors)
    else
      Outcome(o.records, o.errors + [SyncError(LinkFailed, s.model, p.id)])
  }

  function LinkPhase(s: Schema, m: map<Id, Record>, targets: set<Id>, items: seq<Payload>, now: int): (o: Outcome)
    ensures o.records.Keys == m.Keys
    ensures |o.errors| <= |items|
  {
    if items == [] then Outcome(m, [])
    else LinkStep(s, LinkPhase(s, m, targets, items[..|items| - 1], now), targets, items[|items| - 1], now)
  }

  /** The linkage error an item raises, judged on the ids before the phase. */
  function LinkFailures(s: Schema, owners: set<Id>, targets: set<Id>, items: seq<Payload>): seq<SyncError> {
    if items == [] then []
    else
      var p := items[|items| - 1];
      LinkFailures(s, owners, targets, items[..|items| - 1])
        + if p.fk.Present? && !Resolves(owners, targets, p) then [SyncError(LinkFailed, s.model, p.id)] else []
  }

  lemma {:induction false} LinkPhaseErrors(s: Schema, m: map<Id, Record>, targets: set<Id>, items: seq<Payload>, now: int)
    ensures LinkPhase(s, m, targets, items, now).errors == LinkFailures(s, m.Keys, targets, items)
  {
    if items != [] {
      LinkPhaseErrors(s, m, targets, items[..|items| - 1], now);
    }
  }

  /** Linkage changes nothing but the foreign key and the save time, and only
      of rows named by an item that carries the foreign-key key. */
  lemma {:induction false} LinkPhaseFrame(s: Schema, m: map<Id, Record>, targets: set<Id>, items: seq<Payload>, now: int)
    ensures var o := LinkPhase(s, m, targets, items, now);
      forall k | k in m ::
        && o.records[k] == m[k].(fk := o.records[k].fk, updatedAt := o.records[k].updatedAt)
        && ((exists p | p in items :: p.id == k && p.fk.Present?) || o.records[k] == m[k])
  {
    if items != [] {
      var init, p := items[..|items| - 1], items[|items| - 1];
      LinkPhaseFrame(s, m, targets, init, now);
      assert items == init + [p];
    }
  }

  /** A row whose every keyed item fails to resolve is neither assigned nor
      saved: it ends the phase exactly as it began. */
  lemma {:induction false} LinkFailedKeeps(s: Schema, m: map<Id, Record>, targets: set<Id>, items: seq<Payload>,
                                           now: int, k: Id)
    requires k in m
    requires forall p | p in items && p.id == k && p.fk.Present? :: !Resolves(m.Keys, targets, p)
    ensures LinkPhase(s, m, targets, items, now).records[k] == m[k]
  {
    if items != [] {
      var init, p := items[..|items| - 1], items[|items| - 1];
      assert forall q | q in init :: q in items;
      LinkFailedKeeps(s, m, targets, init, now, k);
      assert p in items;
    }
  }

  /** With one item per id, an item whose own row and target both exist ends
      up linked to its target, whatever its position in the list. */
  lemma {:induction false} LinkPhaseResolves(s: Schema, m: map<Id, Record>, targets: set<Id>, items: seq<Payload>,
                                             now: int, p: Payload)
    requires DistinctIds(items) && p in items
    requires p.fk.Present? && Resolves(m.Keys, targets, p)
    ensures LinkPhase(s, m, targets, items, now).records[p.id] == Saved(m[p.id].(fk := p.fk.value), now)
  {
    var init, q := items[..|items| - 1], items[|items| - 1];
    assert items == init + [q];
    if q != p {
      assert p in init;
      assert DistinctIds(init);
      LinkPhaseResolves(s, m, targets, init, now, p);
      assert q.id != p.id by {
        var i :| 0 <= i < |init| && init[i] == p;
      }
    } else {
      LinkPhaseFrame(s, m, targets, init, now);
    }
  }

  lemma {:induction false} LinkPhaseConsistent(s: Schema, m: map<Id, Record>, targets: set<Id>, items: seq<Payload>,
                                               before: int, now: int)
    requires s.fk.Fk? && Consistent(s, m, targets, before) && before <= now
    ensures Consistent(s, LinkPhase(s, m, targets, items, now).records, targets, now)
  {
    if items == [] {
      ConsistentLater(s, m, targets, targets, before, now);
    } else {
      LinkPhaseConsistent(s, m, targets, items[..|items| - 1], before, now);
    }
  }

  // ---------------------------------------------------------------------------
  // Phase 3: partial updates

  /** The serializer's related field accepts the foreign-key value: an existing
      row (tombstones included), or null where the column is nullable. A schema
      without the key ignores it. */
  predicate FkAccepted(s: Schema, f: Field<Option<Id>>, targets: set<Id>) {
    match f
    case Absent => true
    case Present(None) => s.fk.NoFk? || s.fk.nullable
    case Present(Some(t)) => s.fk.NoFk? || t in targets
  }

  predicate Accepted(s: Schema, targets: set<Id>, p: Payload, v: Serializers) {
    v.updatable(s, p) && FkAccepted(s, p.fk, targets)
  }

  /** `missing` is the error kind a view reports for an id it cannot fetch. */
  function UpdateStep(s: Schema, o: Outcome, targets: set<Id>, p: Payload, now: int, v: Serializers,
                      missing: ErrorKind): Outcome
  {
    if p.id !in o.records then
      Outcome(o.records, o.errors + [SyncError(missing, s.model, p.id)])
    else if Accepted(s, targets, p, v) then
      Outcome(o.records[p.id := Patched(s, o.records[p.id], p, now)], o.errors)
    else
      Outcome(o.records, o.errors + [SyncError(UpdateFailed, s.model, p.id)])
  }

  function UpdatePhase(s: Schema, m: map<Id, Record>, targets: set<Id>, items: seq<Payload>, now: int,
                       v: Serializers, missing: ErrorKind): (o: Outcome)
    ensures o.records.Keys == m.Keys
    ensures |o.errors| <= |items|
  {
    if items == [] then Outcome(m, [])
    else UpdateStep(s, UpdatePhase(s, m, targets, items[..|items| - 1], now, v, missing), targets,
                    items[|items| - 1], now, v, missing)
  }

  /** The update error an item raises, judged on the ids before the phase. */
  function UpdateFailures(s: Schema, keys: set<Id>, targets: set<Id>, items: seq<Payload>, v: Serializers,
                          missing: ErrorKind): seq<SyncError>
  {
    if items == [] then []
    else
      var p := items[|items| - 1];
      UpdateFailures(s, keys, targets, items[..|items| - 1], v, missing)
        + if p.id !in keys then [SyncError(missing, s.model, p.id)]
          else if !Accepted(s, targets, p, v) then [SyncError(UpdateFailed, s.model, p.id)]
          else []
  }

  lemma {:induction false} UpdatePhaseErrors(s: Schema, m: map<Id, Record>, targets: set<Id>, items: seq<Payload>,
                                             now: int, v: Serializers, missing: ErrorKind)
    ensures UpdatePhase(s, m, targets, items, now, v, missing).errors == UpdateFailures(s, m.Keys, targets, items, v, missing)
  {
    if items != [] {
      UpdatePhaseErrors(s, m, targets, items[..|items| - 1], now, v, missing);
    }
  }

  /** Rows no item names are untouched; no row's creation time changes; and
      where clients cannot write `deleted_at`, no row's `deleted_at` changes. */
  lemma {:induction false} UpdatePhaseFrame(s: Schema, m: map<Id, Record>, targets: set<Id>, items: seq<Payload>,
                                            now: int, v: Serializers, missing: ErrorKind)
    ensures var o := UpdatePhase(s, m, targets, items, now, v, missing);
      forall k | k in m ::
        && ((exists p | p in items :: p.id == k) || o.records[k] == m[k])
        && o.records[k].createdAt == m[k].createdAt
        && (!s.deletedAtWritable ==> o.records[k].deletedAt == m[k].deletedAt)
  {
    if items != [] {
      var init, p := items[..|items| - 1], items[|items| - 1];
      UpdatePhaseFrame(s, m, targets, init, now, v, missing);
      assert items == init + [p];
      var o0 := UpdatePhase(s, m, targets, init, now, v, missing);
      var o := UpdateStep(s, o0, targets, p, now, v, missing);
      forall k | k in m
        ensures (exists q | q in items :: q.id == k) || o.records[k] == m[k]
        ensures o.records[k].createdAt == m[k].createdAt
        ensures !s.deletedAtWritable ==> o.records[k].deletedAt == m[k].deletedAt
      {
        if k == p.id {
          assert p in items;
        } else {
          assert o.records[k] == o0.records[k];
        }
      }
    }
  }

  /** A row whose every item the serializer rejects is never saved: it ends
      the phase exactly as it began. */
  lemma {:induction false} UpdateRejectedKeeps(s: Schema, m: map<Id, Record>, targets: set<Id>, items: seq<Payload>,
                                               now: int, v: Serializers, missing: ErrorKind, k: Id)
    requires k in m
    requires forall p | p in items && p.id == k :: !Accepted(s, targets, p, v)
    ensures UpdatePhase(s, m, targets, items, now, v, missing).records[k] == m[k]
  {
    if items != [] {
      var init, p := items[..|items| - 1], items[|items| - 1];
      assert forall q | q in init :: q in items;
      UpdateRejectedKeeps(s, m, targets, init, now, v, missing, k);
      assert p in items;
    }
  }

  /** A row keeps its foreign key through the phase when every item for it
      either omits the key or is rejected. */
  lemma {:induction false} UpdateKeepsFk(s: Schema, m: map<Id, Record>, targets: set<Id>, items: seq<Payload>,
                                         now: int, v: Serializers, missing: ErrorKind, k: Id)
    requires k in m
    requires forall p | p in items && p.id == k :: p.fk.Absent? || !Accepted(s, targets, p, v)
    ensures UpdatePhase(s, m, targets, items, now, v, missing).records[k].fk == m[k].fk
  {
    if items != [] {
      var init, p := items[..|items| - 1], items[|items| - 1];
      assert forall q | q in init :: q in items;
      UpdateKeepsFk(s, m, targets, init, now, v, missing, k);
      assert p in items;
    }
  }

  /** With one item per id, an accepted item for an existing row leaves that
      row patched by exactly that item. */
  lemma {:induction false} UpdatePhaseApplies(s: Schema, m: map<Id, Record>, targets: set<Id>, items: seq<Payload>,
                                              now: int, v: Serializers, missing: ErrorKind, p: Payload)
    requires DistinctIds(items) && p in items
    requires p.id in m && Accepted(s, targets, p, v)
    ensures UpdatePhase(s, m, targets, items, now, v, missing).records[p.id] == Patched(s, m[p.id], p, now)
  {
    var init, q := items[..|items| - 1], items[|items| - 1];
    assert items == init + [q];
    if q != p {
      assert p in init;
      assert DistinctIds(init);
      UpdatePhaseApplies(s, m, targets, init, now, v, missing, p);
      assert q.id != p.id by {
        var i :| 0 <= i < |init| && init[i] == p;
      }
    } else {
      UpdatePhaseFrame(s, m, targets, init, now, v, missing);
    }
  }

  lemma {:induction false} UpdatePhaseConsistent(s: Schema, m: map<Id, Record>, targets: set<Id>, items: seq<Payload>,
                                                 before: int, now: int, v: Serializers, missing: ErrorKind)
    requires Consistent(s, m, targets, before) && before <= now
    ensures Consistent(s, UpdatePhase(s, m, targets, items, now, v, missing).records, targets, now)
  {
    if items == [] {
      ConsistentLater(s, m, targets, targets, before, now);
    } else {
      UpdatePhaseConsistent(s, m, targets, items[..|items| - 1], before, now, v, missing);
    }
  }

  // ---------------------------------------------------------------------------
  // Phase 4: soft deletes

  function DeleteStep(s: Schema, o: Outcome, id: Id, now: int, missing: ErrorKind): Outcome {
    if id in o.records then
      Outcome(o.records[id := Tombstoned(o.records[id], now)], o.errors)
    else
      Outcome(o.records, o.errors + [SyncError(missing, s.model, id)])
  }

  function DeletePhase(s: Schema, m: map<Id, Record>, ids: seq<Id>, now: int, missing: ErrorKind): (o: Outcome)
    ensures o.records.Keys == m.Keys
    ensures |o.errors| <= |ids|
  {
    if ids == [] then Outcome(m, [])
    else DeleteStep(s, DeletePhase(s, m, ids[..|ids| - 1], now, missing), ids[|ids| - 1], now, missing)
  }

  /** One error per id that names no row, in list order. */
  function DeleteFailures(s: Schema, keys: set<Id>, ids: seq<Id>, missing: ErrorKind): seq<SyncError> {
    if ids == [] then []
    else
      var id := ids[|ids| - 1];
      DeleteFailures(s, keys, ids[..|ids| - 1], missing) + if id in keys then [] else [SyncError(missing, s.model, id)]
  }

  /** Every existing row named by an id is tombstoned at `now` (again, if it
      already was) and otherwise kept; every other row is untouched; the errors
      are exactly the ids that name no row. */
  lemma {:induction false} DeletePhaseEffect(s: Schema, m: map<Id, Record>, ids: seq<Id>, now: int, missing: ErrorKind)
    ensures var o := DeletePhase(s, m, ids, now, missing);
      && (forall k | k in m :: o.records[k] == if k in ids then Tombstoned(m[k], now) else m[k])
      && o.errors == DeleteFailures(s, m.Keys, ids, missing)
  {
    if ids != [] {
      var init, id := ids[..|ids| - 1], ids[|ids| - 1];
      DeletePhaseEffect(s, m, init, now, missing);
      assert ids == init + [id];
    }
  }

  lemma {:induction false} DeletePhaseConsistent(s: Schema, m: map<Id, Record>, targets: set<Id>, ids: seq<Id>,
                                                 before: int, now: int, missing: ErrorKind)
    requires Consistent(s, m, targets, before) && before <= now
    ensures Consistent(s, DeletePhase(s, m, ids, now, missing).records, targets, now)
  {
    if ids == [] {
      ConsistentLater(s, m, targets, targets, before, now);
    } else {
      DeletePhaseConsistent(s, m, targets, ids[..|ids| - 1], before, now, missing);
    }
  }
  // ---------------------------------------------------------------------------
  // One collection through all four phases

  /** The rows of one collection after a push: bare creation, linkage against
      `linkTargets`, updates checked against `updateTargets`, soft deletes;
      `missing` and `deleteMissing` are the kinds of error reported for an
      unknown id in the last two phases. */
  function Pipeline(s: Schema, m: map<Id, Record>, c: ChangeSet, linkTargets: set<Id>, updateTargets: set<Id>,
                    now: int, v: Serializers, missing: ErrorKind, deleteMissing: ErrorKind): map<Id, Record>
  {
    var o1 := CreatePhase(s, m, c.created, now, v);
    var o2 := LinkPhase(s, o1.records, linkTargets, c.created, now);
    var o3 := UpdatePhase(s, o2.records, updateTargets, c.updated, now, v, missing);
    DeletePhase(s, o3.records, c.deleted, now, deleteMissing).records
  }

  /** The id of a row occurs somewhere in a collection's change set. */
  ghost predicate Named(c: ChangeSet, k: Id) {
    (exists q | q in c.created :: q.id == k) || (exists q | q in c.updated :: q.id == k) || k in c.deleted
  }

  /** Where clients cannot write `deleted_at`, a row leaves the push as a
      tombstone exactly when it entered as one or its id is listed for deletion. */
  lemma PipelineTombstones(s: Schema, m: map<Id, Record>, c: ChangeSet, linkTargets: set<Id>, updateTargets: set<Id>,
                           now: int, v: Serializers, missing: ErrorKind, deleteMissing: ErrorKind)
    requires !s.deletedAtWritable
    ensures var r := Pipeline(s, m, c, linkTargets, updateTargets, now, v, missing, deleteMissing);
      forall k | k in r :: r[k].deletedAt.Some? <==> (k in m && m[k].deletedAt.Some?) || k in c.deleted
  {
    var o1 := CreatePhase(s, m, c.created, now, v);
    CreatePhaseBare(s, m, c.created, now, v);
    var o2 := LinkPhase(s, o1.records, linkTargets, c.created, now);
    LinkPhaseFrame(s, o1.records, linkTargets, c.created, now);
    var o3 := UpdatePhase(s, o2.records, updateTargets, c.updated, now, v, missing);
    UpdatePhaseFrame(s, o2.records, updateTargets, c.updated, now, v, missing);
    DeletePhaseEffect(s, o3.records, c.deleted, now, deleteMissing);
    var r := Pipeline(s, m, c, linkTargets, updateTargets, now, v, missing, deleteMissing);
    forall k | k in r
      ensures r[k].deletedAt.Some? <==> (k in m && m[k].deletedAt.Some?) || k in c.deleted
    {
      if k !in m {
        var p :| p in c.created && p.id == k && o1.records[k] == NewRecord(s, CreationPayload(s, p), now);
      }
    }
  }

  /** A row whose id the change set never mentions leaves the push unchanged. */
  lemma PipelineFrame(s: Schema, m: map<Id, Record>, c: ChangeSet, linkTargets: set<Id>, updateTargets: set<Id>,
                      now: int, v: Serializers, missing: ErrorKind, deleteMissing: ErrorKind)
    ensures var r := Pipeline(s, m, c, linkTargets, updateTargets, now, v, missing, deleteMissing);
      forall k | k in m && !Named(c, k) :: r[k] == m[k]
  {
    var o1 := CreatePhase(s, m, c.created, now, v);
    CreatePhaseBare(s, m, c.created, now, v);
    var o2 := LinkPhase(s, o1.records, linkTargets, c.created, now);
    LinkPhaseFrame(s, o1.records, linkTargets, c.created, now);
    var o3 := UpdatePhase(s, o2.records, updateTargets, c.updated, now, v, missing);
    UpdatePhaseFrame(s, o2.records, updateTargets, c.updated, now, v, missing);
    DeletePhaseEffect(s, o3.records, c.deleted, now, deleteMissing);
  }

  /** A created item that names an existing target ends up linked to it, if
      its row exists after creation and every update in the batch that names
      it omits the foreign key or is rejected. */
  lemma PipelineLinks(s: Schema, m: map<Id, Record>, c: ChangeSet, linkTargets: set<Id>, updateTargets: set<Id>,
                      now: int, v: Serializers, missing: ErrorKind, deleteMissing: ErrorKind, p: Payload, t: Id)
    requires DistinctIds(c.created) && p in c.created && p.fk == Present(Some(t)) && t in linkTargets
    requires p.id in m || v.creatable(s, CreationPayload(s, p))
    requires forall q | q in c.updated && q.id == p.id :: q.fk.Absent? || !Accepted(s, updateTargets, q, v)
    ensures var r := Pipeline(s, m, c, linkTargets, updateTargets, now, v, missing, deleteMissing);
      p.id in r && r[p.id].fk == Some(t)
  {
    var o1 := CreatePhase(s, m, c.created, now, v);
    CreatePhaseKeys(s, m, c.created, now, v);
    assert p.id in o1.records;
    var o2 := LinkPhase(s, o1.records, linkTargets, c.created, now);
    LinkPhaseResolves(s, o1.records, linkTargets, c.created, now, p);
    assert o2.records[p.id].fk == Some(t);
    var o3 := UpdatePhase(s, o2.records, updateTargets, c.updated, now, v, missing);
    UpdateKeepsFk(s, o2.records, updateTargets, c.updated, now, v, missing, p.id);
    assert o3.records[p.id].fk == Some(t);
    var o4 := DeletePhase(s, o3.records, c.deleted, now, deleteMissing);
    DeletePhaseEffect(s, o3.records, c.deleted, now, deleteMissing);
    assert o4.records[p.id].fk == o3.records[p.id].fk;
  }

  /** The phases keep a collection consistent at the batch's clock, as long
      as the set of possible targets only grows from phase to phase. */
  lemma PipelineConsistent(s: Schema, m: map<Id, Record>, c: ChangeSet, targets: set<Id>, linkTargets: set<Id>,
                           updateTargets: set<Id>, before: int, now: int, v: Serializers, missing: ErrorKind, deleteMissing: ErrorKind)
    requires s.fk.Fk? && Consistent(s, m, targets, before) && before <= now && RequiresFk(s, v)
    requires targets <= linkTargets <= updateTargets
    ensures Consistent(s, Pipeline(s, m, c, linkTargets, updateTargets, now, v, missing, deleteMissing), updateTargets, now)
  {
    var o1 := CreatePhase(s, m, c.created, now, v);
    CreatePhaseConsistent(s, m, targets, c.created, before, now, v);
    ConsistentLater(s, o1.records, targets, linkTargets, now, now);
    var o2 := LinkPhase(s, o1.records, linkTargets, c.created, now);
    LinkPhaseConsistent(s, o1.records, linkTargets, c.created, now, now);
    ConsistentLater(s, o2.records, linkTargets, updateTargets, now, now);
    var o3 := UpdatePhase(s, o2.records, updateTargets, c.updated, now, v, missing);
    UpdatePhaseConsistent(s, o2.records, updateTargets, c.updated, now, now, v, missing);
    DeletePhaseConsistent(s, o3.records, updateTargets, c.deleted, now, now, deleteMissing);
  }
}

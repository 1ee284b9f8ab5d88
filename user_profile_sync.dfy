/** The User/StudentProfile sync view: the same pull as the Project/Task view,
    and a push that creates users with their full payload, creates profiles
    without their `user` key, then links each profile to its user, before
    updates and soft deletes. Unlike the Project/Task view, both serializers
    expose `deleted_at`, so clients can write it. */
module UserProfileSync {
  import opened Records
  import opened Delta
  import opened Batch

  /** `UserSerializer` writes `username`, `email`, `first_name`, `last_name`
      and `deleted_at`; a user has no foreign key. `StudentProfileSerializer`
      writes `bio`, `deleted_at` and the non-nullable `user`. */
  const UserSchema := Schema("User", {"username", "email", "first_name", "last_name"}, NoFk, true)
  const ProfileSchema := Schema("StudentProfile", {"bio"}, Fk(false), true)

  /** Which table `_apply_updates` / `_apply_deletions` work on. */
  datatype Model = UserModel | ProfileModel

  function SchemaOf(model: Model): Schema {
    if model == UserModel then UserSchema else ProfileSchema
  }

  datatype PullResponse = PullResponse(users: Changes, profiles: Changes, timestamp: int)

  datatype PushResult = PushResult(users: map<Id, Record>, profiles: map<Id, Record>, errors: seq<SyncError>)

  /** Both tables are consistent: each profile has a `user`, and it names a stored user. */
  ghost predicate ValidTables(users: map<Id, Record>, profiles: map<Id, Record>, now: int) {
    Consistent(UserSchema, users, {}, now) && Consistent(ProfileSchema, profiles, users.Keys, now)
  }

  /** `_apply_changes`: phase 1 creates users, phase 2 creates profiles without
      `user`, phase 3 sets `user` on profiles; then updates of users and of
      profiles, then deletions of users and of profiles. Errors are appended in
      that order. */
  function Apply(users: map<Id, Record>, profiles: map<Id, Record>, uc: ChangeSet, qc: ChangeSet, now: int,
                 v: Serializers): (r: PushResult)
    ensures users.Keys <= r.users.Keys && profiles.Keys <= r.profiles.Keys
  {
    var u1 := CreatePhase(UserSchema, users, uc.created, now, v);
    var q1 := CreatePhase(ProfileSchema, profiles, qc.created, now, v);
    var q2 := LinkPhase(ProfileSchema, q1.records, u1.records.Keys, qc.created, now);
    var u3 := UpdatePhase(UserSchema, u1.records, {}, uc.updated, now, v, UnexpectedUpdate);
    var q3 := UpdatePhase(ProfileSchema, q2.records, u3.records.Keys, qc.updated, now, v, UnexpectedUpdate);
    var u4 := DeletePhase(UserSchema, u3.records, uc.deleted, now, UnexpectedDelete);
    var q4 := DeletePhase(ProfileSchema, q3.records, qc.deleted, now, UnexpectedDelete);
    PushResult(u4.records, q4.records,
               u1.errors + q1.errors + q2.errors + u3.errors + q3.errors + u4.errors + q4.errors)
  }

  /** The profile table leaves `Apply` as its pipeline, with the user ids after
      phase 1 as its link and update targets. */
  lemma ApplyProfiles(users: map<Id, Record>, profiles: map<Id, Record>, uc: ChangeSet, qc: ChangeSet,
                      now: int, v: Serializers)
    ensures var userIds := CreatePhase(UserSchema, users, uc.created, now, v).records.Keys;
      Apply(users, profiles, uc, qc, now, v).profiles
        == Pipeline(ProfileSchema, profiles, qc, userIds, userIds, now, v, UnexpectedUpdate, UnexpectedDelete)
  {
  }

  /** The errors of a push, phase by phase: one creation error per user, then
      per profile, that the serializer rejects or whose id is taken; one
      linkage error per profile item whose row or user is missing; "Update
      failed" or "Unexpected error updating" per rejected update; "Unexpected
      error deleting" per unknown id. Linkage, updates and deletions are
      judged against the ids that exist once creation is over. The push
      succeeds exactly when all of these are empty. */
  lemma ApplyErrors(users: map<Id, Record>, profiles: map<Id, Record>, uc: ChangeSet, qc: ChangeSet,
                    now: int, v: Serializers)
    ensures var userIds := users.Keys + AcceptedIds(UserSchema, uc.created, v);
      var profileIds := profiles.Keys + AcceptedIds(ProfileSchema, qc.created, v);
      Apply(users, profiles, uc, qc, now, v).errors
        == CreateFailures(UserSchema, users.Keys, uc.created, v)
           + CreateFailures(ProfileSchema, profiles.Keys, qc.created, v)
           + LinkFailures(ProfileSchema, profileIds, userIds, qc.created)
           + UpdateFailures(UserSchema, userIds, {}, uc.updated, v, UnexpectedUpdate)
           + UpdateFailures(ProfileSchema, profileIds, userIds, qc.updated, v, UnexpectedUpdate)
           + DeleteFailures(UserSchema, userIds, uc.deleted, UnexpectedDelete)
           + DeleteFailures(ProfileSchema, profileIds, qc.deleted, UnexpectedDelete)
  {
    var u1 := CreatePhase(UserSchema, users, uc.created, now, v);
    CreatePhaseFailures(UserSchema, users, uc.created, now, v);
    CreatePhaseKeys(UserSchema, users, uc.created, now, v);
    var q1 := CreatePhase(ProfileSchema, profiles, qc.created, now, v);
    CreatePhaseFailures(ProfileSchema, profiles, qc.created, now, v);
    CreatePhaseKeys(ProfileSchema, profiles, qc.created, now, v);
    var q2 := LinkPhase(ProfileSchema, q1.records, u1.records.Keys, qc.created, now);
    LinkPhaseErrors(ProfileSchema, q1.records, u1.records.Keys, qc.created, now);
    var u3 := UpdatePhase(UserSchema, u1.records, {}, uc.updated, now, v, UnexpectedUpdate);
    UpdatePhaseErrors(UserSchema, u1.records, {}, uc.updated, now, v, UnexpectedUpdate);
    var q3 := UpdatePhase(ProfileSchema, q2.records, u3.records.Keys, qc.updated, now, v, UnexpectedUpdate);
    UpdatePhaseErrors(ProfileSchema, q2.records, u3.records.Keys, qc.updated, now, v, UnexpectedUpdate);
    DeletePhaseEffect(UserSchema, u3.records, uc.deleted, now, UnexpectedDelete);
    DeletePhaseEffect(ProfileSchema, q3.records, qc.deleted, now, UnexpectedDelete);
  }

  /** With the profile serializer requiring `user`, a push keeps both tables
      consistent at the batch's clock, and every profile still has a `user`
      that names a stored user. */
  lemma ApplyKeepsValid(users: map<Id, Record>, profiles: map<Id, Record>, uc: ChangeSet, qc: ChangeSet,
                        before: int, now: int, v: Serializers)
    requires ValidTables(users, profiles, before) && before <= now && RequiresFk(ProfileSchema, v)
    ensures var r := Apply(users, profiles, uc, qc, now, v); ValidTables(r.users, r.profiles, now)
  {
    assert RequiresFk(UserSchema, v);
    ApplyProfiles(users, profiles, uc, qc, now, v);
    var u1 := CreatePhase(UserSchema, users, uc.created, now, v);
    CreatePhaseConsistent(UserSchema, users, {}, uc.created, before, now, v);
    var u3 := UpdatePhase(UserSchema, u1.records, {}, uc.updated, now, v, UnexpectedUpdate);
    UpdatePhaseConsistent(UserSchema, u1.records, {}, uc.updated, now, now, v, UnexpectedUpdate);
    DeletePhaseConsistent(UserSchema, u3.records, {}, uc.deleted, now, now, UnexpectedDelete);
    PipelineConsistent(ProfileSchema, profiles, qc, users.Keys, u1.records.Keys, u1.records.Keys, before, now, v,
                       UnexpectedUpdate, UnexpectedDelete);
  }

  /** A profile item of the `created` list whose `user` names a stored user,
      or one the batch creates, is linked to that user, wherever either item
      stands in its list, provided its row exists once creation is over and
      every update in the batch that names the profile omits `user`. */
  lemma ProfileLinkResolves(users: map<Id, Record>, profiles: map<Id, Record>, uc: ChangeSet, qc: ChangeSet,
                            now: int, v: Serializers, p: Payload, u: Id)
    requires DistinctIds(qc.created) && p in qc.created && p.fk == Present(Some(u))
    requires u in users || u in AcceptedIds(UserSchema, uc.created, v)
    requires p.id in profiles || v.creatable(ProfileSchema, CreationPayload(ProfileSchema, p))
    requires forall q | q in qc.updated && q.id == p.id :: q.fk.Absent?
    ensures var r := Apply(users, profiles, uc, qc, now, v);
      p.id in r.profiles && r.profiles[p.id].fk == Some(u)
  {
    ApplyProfiles(users, profiles, uc, qc, now, v);
    var userIds := CreatePhase(UserSchema, users, uc.created, now, v).records.Keys;
    CreatePhaseKeys(UserSchema, users, uc.created, now, v);
    PipelineLinks(ProfileSchema, profiles, qc, userIds, userIds, now, v, UnexpectedUpdate, UnexpectedDelete, p, u);
  }

  /** Phase 2 removes `user`, which the profile serializer requires: if it
      rejects every payload without that key, no profile is ever created and
      each created item reports one "StudentProfile creation failed" error. */
  lemma ProfileCreationNeedsUser(users: map<Id, Record>, profiles: map<Id, Record>, uc: ChangeSet, qc: ChangeSet,
                                 now: int, v: Serializers)
    requires RequiresFk(ProfileSchema, v)
    ensures var q1 := CreatePhase(ProfileSchema, profiles, qc.created, now, v);
      && q1.records == profiles
      && ErrorIds(q1.errors) == PayloadIds(qc.created)
      && (forall e | e in q1.errors :: e.kind == CreationFailed && e.model == "StudentProfile")
    ensures Apply(users, profiles, uc, qc, now, v).profiles.Keys == profiles.Keys
  {
    forall q | q in qc.created
      ensures !v.creatable(ProfileSchema, CreationPayload(ProfileSchema, q))
    {
      assert CreationPayload(ProfileSchema, q).fk.Absent?;
    }
    CreatePhaseRejected(ProfileSchema, profiles, qc.created, now, v);
  }

  /** Deletion is not final here: an accepted update that carries a null
      `deleted_at` makes a stored row live again, tombstone or not, unless the
      same batch also deletes it. */
  lemma UpdateRevivesUser(users: map<Id, Record>, profiles: map<Id, Record>, uc: ChangeSet, qc: ChangeSet,
                          now: int, v: Serializers, p: Payload)
    requires DistinctIds(uc.updated) && p in uc.updated && p.id in users
    requires p.deletedAt == Present(None) && v.updatable(UserSchema, p) && p.id !in uc.deleted
    ensures Apply(users, profiles, uc, qc, now, v).users[p.id].deletedAt == None
  {
    var u1 := CreatePhase(UserSchema, users, uc.created, now, v);
    CreatePhaseBare(UserSchema, users, uc.created, now, v);
    var u3 := UpdatePhase(UserSchema, u1.records, {}, uc.updated, now, v, UnexpectedUpdate);
    UpdatePhaseApplies(UserSchema, u1.records, {}, uc.updated, now, v, UnexpectedUpdate, p);
    assert u3.records[p.id].deletedAt == None;
    DeletePhaseEffect(UserSchema, u3.records, uc.deleted, now, UnexpectedDelete);
  }

  /** Deletions run last, so a row the batch lists for deletion leaves it as a
      tombstone stamped with the batch's clock, whatever its updates said. */
  lemma DeletionsWin(users: map<Id, Record>, profiles: map<Id, Record>, uc: ChangeSet, qc: ChangeSet,
                     now: int, v: Serializers)
    ensures var r := Apply(users, profiles, uc, qc, now, v);
      && (forall k | k in r.users && k in uc.deleted :: r.users[k].deletedAt == Some(now))
      && (forall k | k in r.profiles && k in qc.deleted :: r.profiles[k].deletedAt == Some(now))
  {
    var u1 := CreatePhase(UserSchema, users, uc.created, now, v);
    var q1 := CreatePhase(ProfileSchema, profiles, qc.created, now, v);
    var q2 := LinkPhase(ProfileSchema, q1.records, u1.records.Keys, qc.created, now);
    var u3 := UpdatePhase(UserSchema, u1.records, {}, uc.updated, now, v, UnexpectedUpdate);
    var q3 := UpdatePhase(ProfileSchema, q2.records, u3.records.Keys, qc.updated, now, v, UnexpectedUpdate);
    DeletePhaseEffect(UserSchema, u3.records, uc.deleted, now, UnexpectedDelete);
    DeletePhaseEffect(ProfileSchema, q3.records, qc.deleted, now, UnexpectedDelete);
  }

  /** A push leaves every row whose id the batch does not mention exactly as it was. */
  lemma ApplyLeavesOthersAlone(users: map<Id, Record>, profiles: map<Id, Record>, uc: ChangeSet, qc: ChangeSet,
                               now: int, v: Serializers)
    ensures var r := Apply(users, profiles, uc, qc, now, v);
      && (forall k | k in users && !Named(uc, k) :: r.users[k] == users[k])
      && (forall k | k in profiles && !Named(qc, k) :: r.profiles[k] == profiles[k])
  {
    ApplyProfiles(users, profiles, uc, qc, now, v);
    var u1 := CreatePhase(UserSchema, users, uc.created, now, v);
    CreatePhaseBare(UserSchema, users, uc.created, now, v);
    var u3 := UpdatePhase(UserSchema, u1.records, {}, uc.updated, now, v, UnexpectedUpdate);
    UpdatePhaseFrame(UserSchema, u1.records, {}, uc.updated, now, v, UnexpectedUpdate);
    DeletePhaseEffect(UserSchema, u3.records, uc.deleted, now, UnexpectedDelete);
    PipelineFrame(ProfileSchema, profiles, qc, u1.records.Keys, u1.records.Keys, now, v,
                  UnexpectedUpdate, UnexpectedDelete);
  }

  /** The database the view runs on. */
  class Store {
    var users: map<Id, Record>
    var profiles: map<Id, Record>
    /** The clock reading of the last push. */
    var now: int

    ghost predicate Valid()
      reads this
    {
      ValidTables(users, profiles, now)
    }

    constructor (clock: int)
      ensures Valid() && users == map[] && profiles == map[] && now == clock
    {
      users, profiles, now := map[], map[], clock;
    }

    /** `get`: both tables classified against the cursor, with the clock
        reading to use as the next cursor. A client that sends that reading
        back before any further push receives no created or updated rows;
        tombstones can still be reported, because clients write `deleted_at`. */
    function Get(cursor: Cursor, clock: int): (r: PullResponse)
      reads this
      requires Valid() && now <= clock
      ensures Disjoint(r.users) && DrawnFrom(r.users, users)
      ensures Disjoint(r.profiles) && DrawnFrom(r.profiles, profiles)
      ensures r.timestamp == clock
      ensures cursor.Since? && now <= cursor.ms ==>
        && r.users.created == map[] && r.users.updated == map[]
        && r.profiles.created == map[] && r.profiles.updated == map[]
      ensures Classify(users, Since(r.timestamp)).created == map[]
      ensures Classify(users, Since(r.timestamp)).updated == map[]
      ensures Classify(profiles, Since(r.timestamp)).created == map[]
      ensures Classify(profiles, Since(r.timestamp)).updated == map[]
    {
      CaughtUp(UserSchema, users, {}, now, clock);
      CaughtUp(ProfileSchema, profiles, users.Keys, now, clock);
      if cursor.Since? && now <= cursor.ms then
        CaughtUp(UserSchema, users, {}, now, cursor.ms);
        CaughtUp(ProfileSchema, profiles, users.Keys, now, cursor.ms);
        PullResponse(Classify(users, cursor), Classify(profiles, cursor), clock)
      else
        PullResponse(Classify(users, cursor), Classify(profiles, cursor), clock)
    }

    /** `post`: the whole batch at one clock reading, with `StudentProfileSerializer`
        requiring `user`; the response is success exactly when no item
        reported an error. */
    method Post(uc: ChangeSet, qc: ChangeSet, clock: int, v: Serializers) returns (errors: seq<SyncError>, success: bool)
      requires Valid() && now <= clock && RequiresFk(ProfileSchema, v)
      modifies this
      ensures Valid() && now == clock
      ensures PushResult(users, profiles, errors) == Apply(old(users), old(profiles), uc, qc, clock, v)
      ensures success <==> errors == []
    {
      ApplyKeepsValid(users, profiles, uc, qc, now, clock, v);
      now := clock;
      errors := ApplyChanges(uc, qc, v);
      success := errors == [];
    }

    method ApplyChanges(uc: ChangeSet, qc: ChangeSet, v: Serializers) returns (errors: seq<SyncError>)
      modifies this
      ensures now == old(now)
      ensures PushResult(users, profiles, errors) == Apply(old(users), old(profiles), uc, qc, now, v)
    {
      var userItems, profileItems := uc.created, qc.created;
      errors := CreateUsers(userItems, v);
      var more := CreateProfiles(profileItems, v);
      errors := errors + more;
      more := LinkUsers(profileItems);
      errors := errors + more;
      more := ApplyUpdates(uc.updated, UserModel, v);
      errors := errors + more;
      more := ApplyUpdates(qc.updated, ProfileModel, v);
      errors := errors + more;
      more := ApplyDeletions(uc.deleted, UserModel);
      errors := errors + more;
      more := ApplyDeletions(qc.deleted, ProfileModel);
      errors := errors + more;
    }

    /** Phase 1: each user item is saved with its full payload, or reported. */
    method CreateUsers(items: seq<Payload>, v: Serializers) returns (errors: seq<SyncError>)
      modifies this
      ensures now == old(now) && profiles == old(profiles)
      ensures Outcome(users, errors) == CreatePhase(UserSchema, old(users), items, now, v)
    {
      errors := [];
      var i := 0;
      while i < |items|
        invariant 0 <= i <= |items| && now == old(now) && profiles == old(profiles)
        invariant Outcome(users, errors) == CreatePhase(UserSchema, old(users), items[..i], now, v)
      {
        var item := items[i];
        if v.creatable(UserSchema, item) && item.id !in users {
          users := users[item.id := NewRecord(UserSchema, item, now)];
        } else {
          errors := errors + [SyncError(CreationFailed, "User", item.id)];
        }
        assert items[..i + 1][..i] == items[..i];
        i := i + 1;
      }
      assert items[..i] == items;
    }

    /** Phase 2: each profile item is saved with its `user` key removed, or reported. */
    method CreateProfiles(items: seq<Payload>, v: Serializers) returns (errors: seq<SyncError>)
      modifies this
      ensures now == old(now) && users == old(users)
      ensures Outcome(profiles, errors) == CreatePhase(ProfileSchema, old(profiles), items, now, v)
    {
      errors := [];
      var i := 0;
      while i < |items|
        invariant 0 <= i <= |items| && now == old(now) && users == old(users)
        invariant Outcome(profiles, errors) == CreatePhase(ProfileSchema, old(profiles), items[..i], now, v)
      {
        var item := items[i];
        var itemData := item.(fk := Absent);
        if v.creatable(ProfileSchema, itemData) && item.id !in profiles {
          profiles := profiles[item.id := NewRecord(ProfileSchema, itemData, now)];
        } else {
          errors := errors + [SyncError(CreationFailed, "StudentProfile", item.id)];
        }
        assert items[..i + 1][..i] == items[..i];
        i := i + 1;
      }
      assert items[..i] == items;
    }

    /** Phase 3: for each profile item that carries `user`, fetch the profile
        and the user and link them, or report. */
    method LinkUsers(items: seq<Payload>) returns (errors: seq<SyncError>)
      modifies this
      ensures now == old(now) && users == old(users)
      ensures Outcome(profiles, errors) == LinkPhase(ProfileSchema, old(profiles), users.Keys, items, now)
    {
      errors := [];
      var i := 0;
      while i < |items|
        invariant 0 <= i <= |items| && now == old(now) && users == old(users)
        invariant Outcome(profiles, errors) == LinkPhase(ProfileSchema, old(profiles), users.Keys, items[..i], now)
      {
        var item := items[i];
        if item.fk.Present? {
          if item.id in profiles && item.fk.value.Some? && item.fk.value.value in users {
            profiles := profiles[item.id := Saved(profiles[item.id].(fk := item.fk.value), now)];
          } else {
            errors := errors + [SyncError(LinkFailed, "StudentProfile", item.id)];
          }
        }
        assert items[..i + 1][..i] == items[..i];
        i := i + 1;
      }
      assert items[..i] == items;
    }

    /** `_apply_updates`: partial updates of one table; an id that names no
        row is reported as an unexpected error. */
    method ApplyUpdates(items: seq<Payload>, model: Model, v: Serializers) returns (errors: seq<SyncError>)
      modifies this
      ensures now == old(now)
      ensures model == UserModel ==> (profiles == old(profiles) &&
        Outcome(users, errors) == UpdatePhase(UserSchema, old(users), {}, items, now, v, UnexpectedUpdate))
      ensures model == ProfileModel ==> (users == old(users) &&
        Outcome(profiles, errors) == UpdatePhase(ProfileSchema, old(profiles), old(users).Keys, items, now, v, UnexpectedUpdate))
    {
      errors := [];
      var s := SchemaOf(model);
      var i := 0;
      while i < |items|
        invariant 0 <= i <= |items| && now == old(now)
        invariant model == UserModel ==> (profiles == old(profiles) &&
          Outcome(users, errors) == UpdatePhase(UserSchema, old(users), {}, items[..i], now, v, UnexpectedUpdate))
        invariant model == ProfileModel ==> (users == old(users) &&
          Outcome(profiles, errors) == UpdatePhase(ProfileSchema, old(profiles), old(users).Keys, items[..i], now, v, UnexpectedUpdate))
      {
        var item := items[i];
        var table := if model == UserModel then users else profiles;
        var targets := if model == UserModel then {} else users.Keys;
        if item.id !in table {
          errors := errors + [SyncError(UnexpectedUpdate, s.model, item.id)];
        } else if v.updatable(s, item) && FkAccepted(s, item.fk, targets) {
          var obj := Patched(s, table[item.id], item, now);
          if model == UserModel {
            users := users[item.id := obj];
          } else {
            profiles := profiles[item.id := obj];
          }
        } else {
          errors := errors + [SyncError(UpdateFailed, s.model, item.id)];
        }
        assert items[..i + 1][..i] == items[..i];
        i := i + 1;
      }
      assert items[..i] == items;
    }

    /** `_apply_deletions`: soft deletes in one table; an id that names no row
        is reported as an unexpected error. */
    method ApplyDeletions(ids: seq<Id>, model: Model) returns (errors: seq<SyncError>)
      modifies this
      ensures now == old(now)
      ensures model == UserModel ==> (profiles == old(profiles) &&
        Outcome(users, errors) == DeletePhase(UserSchema, old(users), ids, now, UnexpectedDelete))
      ensures model == ProfileModel ==> (users == old(users) &&
        Outcome(profiles, errors) == DeletePhase(ProfileSchema, old(profiles), ids, now, UnexpectedDelete))
    {
      errors := [];
      var s := SchemaOf(model);
      var i := 0;
      while i < |ids|
        invariant 0 <= i <= |ids| && now == old(now)
        invariant model == UserModel ==> (profiles == old(profiles) &&
          Outcome(users, errors) == DeletePhase(UserSchema, old(users), ids[..i], now, UnexpectedDelete))
        invariant model == ProfileModel ==> (users == old(users) &&
          Outcome(profiles, errors) == DeletePhase(ProfileSchema, old(profiles), ids[..i], now, UnexpectedDelete))
      {
        var id := ids[i];
        var table := if model == UserModel then users else profiles;
        if id in table {
          var obj := Tombstoned(table[id], now);
          if model == UserModel {
            users := users[id := obj];
          } else {
            profiles := profiles[id := obj];
          }
        } else {
          errors := errors + [SyncError(UnexpectedDelete, s.model, id)];
        }
        assert ids[..i + 1][..i] == ids[..i];
        i := i + 1;
      }
      assert ids[..i] == ids;
    }
  }
}

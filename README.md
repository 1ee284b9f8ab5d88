# watermelon-django-sync: a verified model of the sync engine

This project models, in Dafny, the server half of the WatermelonDB sync
protocol as two Django views implement it: `SyncView` for projects and
tasks, and `UserProfileSyncView` for users and student profiles.

- **Pull** (`get`). Each collection is split into three buckets against the
  client's `last_pulled_at` cursor. *created* holds live rows created after
  the cursor. *updated* holds live rows saved after the cursor but created
  at or before it. *deleted* holds the ids of rows soft-deleted after it.
  With no cursor the pull is a full snapshot. The response also carries the
  server clock, which the client sends back as its next cursor.
- **Push** (`post`). A batch of `created` / `updated` / `deleted` lists per
  collection is applied in fixed phases. Rows are created without their
  foreign key. Foreign keys are set once every row of the batch exists, so
  a project and a task may name each other in one batch. Then come partial
  updates, then soft deletes (`deleted_at` takes the clock). Every failure
  the views catch becomes one error entry, and the transaction then commits
  whatever succeeded. The response is success exactly when no error was
  reported.

Modules:

- `Records` (`records.dfy`): rows, client payloads (which keys an item
  carries), what each serializer may write, and the effect of `save()` on
  the `auto_now_add` / `auto_now` timestamps.
- `Delta` (`delta.dfy`): the pull classification shared by both views.
- `Batch` (`batch.dfy`): the four push phases as folds over an item list in
  list order, with their lemmas. `Pipeline` chains all four for one
  collection.
- `ProjectTaskSync` (`project_task_sync.dfy`) and `UserProfileSync`
  (`user_profile_sync.dfy`): each view's `_apply_changes` as a function
  `Apply`, its properties, and a class `Store` whose table fields the view's
  methods update in place. Each method's loops are proved equal to the
  matching phase function.

The two views differ in ways the model keeps:

- `ProjectSerializer` and `TaskSerializer` do not expose `deleted_at`.
  There, a tombstone stays a tombstone (`ProjectTaskSync.ApplyTombstones`).
- Both user-side serializers do expose `deleted_at`. An update carrying a
  null `deleted_at` brings a deleted user back (`UserProfileSync.UpdateRevivesUser`).
- The project/task view reports an unknown id as "`<Model> <id>` does not
  exist". The user view reports it as an unexpected error.
- `StudentProfile.user` is a non-nullable foreign key, so the generated
  serializer field is required (`Batch.RequiresFk`). Yet phase 2 removes
  `user` before validation, so no profile can ever be created through a
  push (`UserProfileSync.ProfileCreationNeedsUser`). Profile items of the
  `created` list can still link an already stored profile to its user.

Two stricter rules that a sync protocol could impose are not enforced by
the code, and the model does not enforce them either.

- Tombstones are not frozen. Updates apply to soft-deleted rows, and
  deleting a row again re-stamps its `deleted_at`.
- A foreign key may name a tombstoned row. The linkage step (`objects.get`)
  and the serializers' related fields (`objects.all()`) accept soft-deleted
  targets.

Field validation is abstract. A `Serializers` value says whether a payload
may create a row and whether it may update one. The model makes three
serializer checks itself rather than leaving them to `Serializers`: the
primary key's unique validator, and the related field's queryset and its
`allow_null`.

- A new row's primary key must be free. Tombstones count as taken.
- On update, a foreign-key value must name an existing row.
- On update, a null foreign key is refused where the column is not nullable.

One property of the serializers is assumed rather than checked: a creation
payload without a non-nullable foreign key is refused, as DRF makes such a
related field required (`Batch.RequiresFk`). The user view's `post` and its
validity lemma carry it; for the project/task schemas it holds for every
serializer, since both foreign keys are nullable.

All saves in one push read one clock value, passed in as a parameter. The
store's clock only moves forward.

## Model

| member | source | states |
|---|---|---|
| Records.Patched | watermelon_app/views.py:236-240 | a partial update keeps the id and `created_at`, stamps `updated_at` with the clock, overwrites exactly the writable keys the payload carries, writes the foreign key and `deleted_at` when the payload carries them and the serializer exposes them, and leaves them alone otherwise |
| Delta.Classify | watermelon_app/views.py:61-85 | the three buckets are pairwise disjoint, and every reported row is the stored row under its own id |
| Delta.SnapshotPull | watermelon_app/views.py:51-72 | with no cursor, *created* is exactly the live rows, *updated* is empty, and *deleted* is exactly the tombstones' ids |
| Delta.ReportedIffChanged | watermelon_app/views.py:61-85 | a live row is reported as created or updated iff it was saved after the cursor, and never as deleted; a tombstone is reported only as deleted, and only if it was deleted after the cursor |
| Delta.CaughtUp | watermelon_app/views.py:61-102 | a client whose cursor is at or after the last push gets no created and no updated rows, and no deleted ids where only the server stamps `deleted_at` |
| Batch.CreatePhase | watermelon_app/views.py:165-183 | bare creation never removes a row and reports at most one error per item |
| Batch.CreatePhaseKeys | watermelon_app/views.py:165-183 | after creation the ids are the old ids plus the ids of the items the serializer accepts |
| Batch.CreatePhaseBare | watermelon_app/views.py:165-183 | creation never overwrites a stored row; each new row has no foreign key and is built at the clock from an item with its id |
| Batch.CreatePhaseFailures | watermelon_app/views.py:165-183 | the creation errors are exactly the `CreateFailures` fold: one error per item the serializer rejects or whose id is already stored or taken by an earlier accepted item, in list order, and none for the others |
| Batch.CreateFailuresNone | watermelon_app/views.py:165-183 | items with distinct ids that the serializer accepts and whose ids are free raise no creation error |
| Batch.CreatePhaseErrors | watermelon_app/views.py:170-173 | every creation error is a creation failure of this model, and no item is named by more errors than it occurs in the list |
| Batch.CreatePhaseRejected | watermelon_app/views.py:165-183 | when the serializer rejects every item, nothing is created and the errors name exactly the items, in order |
| Batch.CreatePhaseConsistent | watermelon_app/views.py:165-183 | creation keeps a collection consistent at the batch clock, given a serializer that refuses a payload without a non-nullable foreign key |
| Batch.LinkPhase | watermelon_app/views.py:185-209 | linkage keeps the set of ids and reports at most one error per item |
| Batch.LinkPhaseErrors | watermelon_app/views.py:185-209 | one linkage error for each item that carries the key while its own row or its target is missing, in list order; none for items without the key |
| Batch.LinkPhaseFrame | watermelon_app/views.py:185-209 | linkage changes only the foreign key and `updated_at`, and only of rows named by an item carrying the key |
| Batch.LinkFailedKeeps | watermelon_app/views.py:186-209 | a row whose every keyed item fails (its row or its target missing) is neither assigned nor saved and ends the phase unchanged |
| Batch.LinkPhaseResolves | watermelon_app/views.py:185-209 | an item whose row and target both exist ends with its row pointing at the target and saved at the clock, wherever it stands in the list |
| Batch.LinkPhaseConsistent | watermelon_app/views.py:185-209 | linkage keeps a collection consistent: every foreign key it sets names a target |
| Batch.UpdatePhase | watermelon_app/views.py:219-247 | updates keep the set of ids and report at most one error per item |
| Batch.UpdatePhaseErrors | watermelon_app/views.py:219-247 | one error per item: the view's missing-row error for an unknown id, "Update failed" for a rejected payload, none otherwise |
| Batch.UpdatePhaseFrame | watermelon_app/views.py:219-247 | rows no item names are untouched, no `created_at` changes, and `deleted_at` never changes where the serializer does not expose it |
| Batch.UpdateRejectedKeeps | watermelon_app/views.py:236-244 | a row whose every item the serializer rejects never reaches `save()` and ends the phase unchanged |
| Batch.UpdateKeepsFk | watermelon_app/views.py:236-244 | a row keeps its foreign key when every item for it omits the key or is rejected |
| Batch.UpdatePhaseApplies | watermelon_app/views.py:236-240 | an accepted item's row, tombstone or not, becomes the partial update of its stored row |
| Batch.UpdatePhaseConsistent | watermelon_app/views.py:219-247 | updates keep a collection consistent: foreign keys stay inside the targets |
| Batch.DeletePhase | watermelon_app/views.py:249-271 | soft deletes keep the set of ids and report at most one error per id |
| Batch.DeletePhaseEffect | watermelon_app/views.py:249-271 | every stored row a listed id names is tombstoned at the clock (again, if it already was), other rows are untouched, and the errors are exactly the unknown ids in list order |
| Batch.DeletePhaseConsistent | watermelon_app/views.py:249-271 | soft deletes keep a collection consistent |
| Batch.PipelineTombstones | watermelon_app/views.py:149-217 | where clients cannot write `deleted_at`, a row ends a push as a tombstone iff it was one before or the batch lists it for deletion |
| Batch.PipelineFrame | watermelon_app/views.py:149-217 | a row the change set never mentions ends the push unchanged |
| Batch.PipelineLinks | watermelon_app/views.py:185-209 | a created item naming an existing target ends the push linked to it if its row exists and every update naming it omits the key or is rejected |
| Batch.PipelineConsistent | watermelon_app/views.py:149-217 | all four phases together keep a collection consistent while the target set only grows |
| ProjectTaskSync.Apply | watermelon_app/views.py:149-217 | a push never removes a project or a task |
| ProjectTaskSync.ApplyErrors | watermelon_app/views.py:161-217 | the error list is, in phase order, the creation failures of projects then tasks, then their linkage, update and delete failures, the last three judged against the ids after creation |
| ProjectTaskSync.MutualCreationSucceeds | watermelon_app/views.py:165-209 | a batch creating a new project and a new task that name each other, both accepted, reports no error and leaves them linked both ways |
| ProjectTaskSync.ApplyKeepsValid | watermelon_app/views.py:149-217 | a push keeps both tables consistent, and every `lead_task` and `project` names a stored row |
| ProjectTaskSync.ApplyTombstones | watermelon_app/views.py:211-215 | after a push a project or task is a tombstone iff it was one before or its id is in the batch's `deleted` list, so no push un-deletes |
| ProjectTaskSync.CrossReferencesResolve | watermelon_app/views.py:165-209 | a project and a task created in one batch that name each other end up linked both ways, in any list order, when every update naming either omits the foreign key |
| ProjectTaskSync.ApplyLeavesOthersAlone | watermelon_app/views.py:149-217 | rows the batch does not mention are unchanged |
| ProjectTaskSync.Store.constructor | watermelon_app/models.py:5-29 | an empty database is valid |
| ProjectTaskSync.Store.Get | watermelon_app/views.py:18-103 | both responses are disjoint buckets drawn from the tables, the timestamp is the clock, and a client pulling with that timestamp, or any cursor at or after the last push, gets an empty delta |
| ProjectTaskSync.Store.Post | watermelon_app/views.py:105-147 | the tables become `Apply` of the batch at the clock, validity is kept, and success holds iff the error list is empty |
| ProjectTaskSync.Store.ApplyChanges | watermelon_app/views.py:149-217 | the steps run in the view's order and leave exactly `Apply`'s tables and errors |
| ProjectTaskSync.Store.CreateWithoutFk | watermelon_app/views.py:165-183 | the loop leaves exactly the bare-creation fold of its table, and the other table unchanged |
| ProjectTaskSync.Store.LinkForeignKeys | watermelon_app/views.py:185-209 | the loop leaves exactly the linkage fold of its table against the other table's ids |
| ProjectTaskSync.Store.ApplyUpdated | watermelon_app/views.py:219-247 | the loop leaves exactly the update fold, with "does not exist" for unknown ids |
| ProjectTaskSync.Store.ApplyDeleted | watermelon_app/views.py:249-271 | the loop leaves exactly the soft-delete fold, with "does not exist" for unknown ids |
| UserProfileSync.Apply | watermelon_user/views.py:86-129 | a push never removes a user or a profile |
| UserProfileSync.ApplyErrors | watermelon_user/views.py:86-129 | the error list is, in phase order, the creation failures of users then profiles, then the profile linkage failures, then the update and deletion failures of users and profiles, the last three judged against the ids after creation |
| UserProfileSync.ApplyKeepsValid | watermelon_user/views.py:86-129 | with the profile serializer requiring `user`, a push keeps both tables consistent: every profile has a `user`, and it names a stored user |
| UserProfileSync.ProfileLinkResolves | watermelon_user/views.py:109-120 | a profile item of the `created` list whose row exists once creation is over, and whose `user` names a user that exists then, ends up linked to that user, in any list order, when every item of the `updated` list with its id omits `user` |
| UserProfileSync.ProfileCreationNeedsUser | watermelon_user/views.py:99-107 | if the serializer requires `user`, stripping it means no profile is created and every profile item reports one creation error |
| UserProfileSync.UpdateRevivesUser | watermelon_user/views.py:131-143 | an accepted update with a null `deleted_at` makes a stored user live again, tombstone or not, unless the batch also deletes it |
| UserProfileSync.DeletionsWin | watermelon_user/views.py:122-127 | a row the batch lists for deletion ends as a tombstone stamped with the clock, whatever its updates said |
| UserProfileSync.ApplyLeavesOthersAlone | watermelon_user/views.py:86-129 | rows the batch does not mention are unchanged |
| UserProfileSync.Store.constructor | watermelon_user/models.py:5-21 | an empty database is valid |
| UserProfileSync.Store.Get | watermelon_user/views.py:18-64 | both responses are disjoint buckets drawn from the tables, the timestamp is the clock, and a client pulling with that timestamp, or any cursor at or after the last push, gets no created or updated rows |
| UserProfileSync.Store.Post | watermelon_user/views.py:66-84 | with the profile serializer requiring `user`, the tables become `Apply` of the batch at the clock, validity is kept, and success holds iff the error list is empty |
| UserProfileSync.Store.ApplyChanges | watermelon_user/views.py:86-129 | the phases run in the view's order and leave exactly `Apply`'s tables and errors |
| UserProfileSync.Store.CreateUsers | watermelon_user/views.py:91-97 | the loop leaves exactly the creation fold of the user table from full payloads |
| UserProfileSync.Store.CreateProfiles | watermelon_user/views.py:99-107 | the loop leaves exactly the creation fold of the profile table from payloads without `user` |
| UserProfileSync.Store.LinkUsers | watermelon_user/views.py:109-120 | the loop leaves exactly the linkage fold of the profile table against the user ids |
| UserProfileSync.Store.ApplyUpdates | watermelon_user/views.py:131-143 | the loop leaves exactly the update fold, with an unexpected error for unknown ids |
| UserProfileSync.Store.ApplyDeletions | watermelon_user/views.py:145-154 | the loop leaves exactly the soft-delete fold, with an unexpected error for unknown ids |

## Left out

- HTTP, routing, JSON rendering and status codes are not modelled. A response is modelled as its buckets, its timestamp, its error list and the success flag.
- An error is modelled as its kind, model name and id. The exception text and `serializer.errors` appended to the message are left out.
- Field validation (types, `max_length`, required `name`/`title`/`username`/`bio`) is abstract. It is the `Serializers` parameter.
- UserProfileSync.ApplyErrors, UserProfileSync.Store.CreateUsers, UserProfileSync.Store.ApplyUpdates: validation that depends on other rows is not modelled. A `Serializers` decision sees only the schema and the payload, so the unique `username` of `User`, checked against the table on create and on update, is not captured.
- Pull results are unordered maps and sets. The `ordering = ['created_at']` of the querysets is left out.
- Delta.CaughtUp, ProjectTaskSync.Store.Get, UserProfileSync.Store.Get: timestamps are whole milliseconds in the model. Django stores microseconds, and the returned `timestamp` truncates the clock to the millisecond, so a row saved later within that same millisecond compares greater than the next cursor and is reported again. The empty caught-up delta holds only for whole-millisecond saves; in Django the effect is a duplicate report, never a lost change.
- Timestamps are whole milliseconds. The float conversion of `last_pulled_at` and of the returned clock is left out, and so is a non-numeric `last_pulled_at`, which raises. `datetime.min` is modelled as a cursor below every stored timestamp.
- Every save in one push reads one clock value. Django reads the clock at each save, so in Django the timestamps within a batch can differ slightly.
- `transaction.atomic` is not modelled as a rollback. Every failure the views handle is caught, so the transaction always commits what succeeded. An exception escaping the views (a database failure) is left out.
- Ids are compared as text in canonical UUID form. Django parses UUID ids, so other spellings of the same UUID (upper case, no hyphens) name the same row, and a malformed id raises a validation error that reaches the `except Exception` branches ("Unexpected error") rather than the "does not exist" or link-failure branches. Both are left out.
- Items without an `id` key are left out. The catch-all `except Exception` branches that such items and database faults reach are left out too.
- UserProfileSync.Store.CreateUsers and UserProfileSync.ProfileLinkResolves key users by the payload id. In Django `User.id` is an auto-increment key that the serializer treats as read-only, so the database numbers new users itself, and a profile's `user` must name that number. The model refuses a reused user id, as for the other tables.
- The `AbstractUser` columns (password, flags, dates) and the `uuid` column are left out.
- `on_delete` (`SET_NULL`, `CASCADE`) is not modelled, because the views never delete a row physically.
- Concurrent requests are not modelled. Each push is applied as one step.
- ProjectTaskSync.Apply and UserProfileSync.Apply state in their own contract only that rows are never removed. Their other properties are the lemmas next to them.

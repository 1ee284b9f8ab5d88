/** The Project/Task sync view: a pull that classifies both tables against the
    client's cursor, and a push that creates, links, updates and soft-deletes
    projects and tasks, whose foreign keys (`Project.lead_task` -> Task,
    `Task.project` -> Project) may form a cycle within one batch. */
module ProjectTaskSync {
  import opened Records
  import opened Delta
  import opened Batch

  /** `ProjectSerializer` writes `name` and the nullable `lead_task`;
      `TaskSerializer` writes `title` and the nullable `project`. Neither
      exposes `deleted_at`. */
  const ProjectSchema := Schema("Project", {"name"}, Fk(true), false)
  const TaskSchema := Schema("Task", {"title"}, Fk(true), false)

  /** Which table `_apply_updated` / `_apply_deleted` work on. */
  datatype Model = ProjectModel | TaskModel

  function SchemaOf(model: Model): Schema {
    if model == ProjectModel then ProjectSchema else TaskSchema
  }

  datatype PullResponse = PullResponse(projects: Changes, tasks: Changes, timestamp: int)

  datatype PushResult = PushResult(projects: map<Id, Record>, tasks: map<Id, Record>, errors: seq<SyncError>)

  /** Both tables are consistent, and each foreign key names a row of the other table. */
  ghost predicate ValidTables(projects: map<Id, Record>, tasks: map<Id, Record>, now: int) {
    Consistent(ProjectSchema, projects, tasks.Keys, now) && Consistent(TaskSchema, tasks, projects.Keys, now)
  }

  /** `_apply_changes`: bare creation of projects, then of tasks; linkage of
      projects, then of tasks; updates of projects, then of tasks; deletes of
      projects, then of tasks. Errors are appended in that order. */
  function Apply(projects: map<Id, Record>, tasks: map<Id, Record>, pc: ChangeSet, tc: ChangeSet, now: int,
                 v: Serializers): (r: PushResult)
    ensures projects.Keys <= r.projects.Keys && tasks.Keys <= r.tasks.Keys
  {
    var p1 := CreatePhase(ProjectSchema, projects, pc.created, now, v);
    var t1 := CreatePhase(TaskSchema, tasks, tc.created, now, v);
    var p2 := LinkPhase(ProjectSchema, p1.records, t1.records.Keys, pc.created, now);
    var t2 := LinkPhase(TaskSchema, t1.records, p2.records.Keys, tc.created, now);
    var p3 := UpdatePhase(ProjectSchema, p2.records, t2.records.Keys, pc.updated, now, v, DoesNotExist);
    var t3 := UpdatePhase(TaskSchema, t2.records, p3.records.Keys, tc.updated, now, v, DoesNotExist);
    var p4 := DeletePhase(ProjectSchema, p3.records, pc.deleted, now, DoesNotExist);
    var t4 := DeletePhase(TaskSchema, t3.records, tc.deleted, now, DoesNotExist);
    PushResult(p4.records, t4.records,
               p1.errors + t1.errors + p2.errors + t2.errors + p3.errors + t3.errors + p4.errors + t4.errors)
  }

  /** Each table leaves `Apply` as its own pipeline; the other table's ids
      after bare creation are its link and update targets. */
  lemma ApplyTables(projects: map<Id, Record>, tasks: map<Id, Record>, pc: ChangeSet, tc: ChangeSet,
                    now: int, v: Serializers)
    ensures var r := Apply(projects, tasks, pc, tc, now, v);
      var projectIds := CreatePhase(ProjectSchema, projects, pc.created, now, v).records.Keys;
      var taskIds := CreatePhase(TaskSchema, tasks, tc.created, now, v).records.Keys;
      && r.projects == Pipeline(ProjectSchema, projects, pc, taskIds, taskIds, now, v, DoesNotExist, DoesNotExist)
      && r.tasks == Pipeline(TaskSchema, tasks, tc, projectIds, projectIds, now, v, DoesNotExist, DoesNotExist)
  {
  }

  /** The errors of a push, phase by phase: one creation error per project,
      then per task, that the serializer rejects or whose id is taken; one
      linkage error per item whose row or target is missing; "Update failed"
      or "does not exist" per rejected update; "does not exist" per unknown
      deleted id. Linkage, updates and deletes are judged against the ids
      that exist once creation is over. The push succeeds exactly when all
      of these are empty. */
  lemma ApplyErrors(projects: map<Id, Record>, tasks: map<Id, Record>, pc: ChangeSet, tc: ChangeSet,
                    now: int, v: Serializers)
    ensures var projectIds := projects.Keys + AcceptedIds(ProjectSchema, pc.created, v);
      var taskIds := tasks.Keys + AcceptedIds(TaskSchema, tc.created, v);
      Apply(projects, tasks, pc, tc, now, v).errors
        == CreateFailures(ProjectSchema, projects.Keys, pc.created, v)
           + CreateFailures(TaskSchema, tasks.Keys, tc.created, v)
           + LinkFailures(ProjectSchema, projectIds, taskIds, pc.created)
           + LinkFailures(TaskSchema, taskIds, projectIds, tc.created)
           + UpdateFailures(ProjectSchema, projectIds, taskIds, pc.updated, v, DoesNotExist)
           + UpdateFailures(TaskSchema, taskIds, projectIds, tc.updated, v, DoesNotExist)
           + DeleteFailures(ProjectSchema, projectIds, pc.deleted, DoesNotExist)
           + DeleteFailures(TaskSchema, taskIds, tc.deleted, DoesNotExist)
  {
    var p1 := CreatePhase(ProjectSchema, projects, pc.created, now, v);
    CreatePhaseFailures(ProjectSchema, projects, pc.created, now, v);
    CreatePhaseKeys(ProjectSchema, projects, pc.created, now, v);
    var t1 := CreatePhase(TaskSchema, tasks, tc.created, now, v);
    CreatePhaseFailures(TaskSchema, tasks, tc.created, now, v);
    CreatePhaseKeys(TaskSchema, tasks, tc.created, now, v);
    var p2 := LinkPhase(ProjectSchema, p1.records, t1.records.Keys, pc.created, now);
    LinkPhaseErrors(ProjectSchema, p1.records, t1.records.Keys, pc.created, now);
    var t2 := LinkPhase(TaskSchema, t1.records, p2.records.Keys, tc.created, now);
    LinkPhaseErrors(TaskSchema, t1.records, p2.records.Keys, tc.created, now);
    var p3 := UpdatePhase(ProjectSchema, p2.records, t2.records.Keys, pc.updated, now, v, DoesNotExist);
    UpdatePhaseErrors(ProjectSchema, p2.records, t2.records.Keys, pc.updated, now, v, DoesNotExist);
    var t3 := UpdatePhase(TaskSchema, t2.records, p3.records.Keys, tc.updated, now, v, DoesNotExist);
    UpdatePhaseErrors(TaskSchema, t2.records, p3.records.Keys, tc.updated, now, v, DoesNotExist);
    DeletePhaseEffect(ProjectSchema, p3.records, pc.deleted, now, DoesNotExist);
    DeletePhaseEffect(TaskSchema, t3.records, tc.deleted, now, DoesNotExist);
  }

  /** A batch that creates a new project and a new task naming each other,
      both accepted by their serializers, succeeds with no error and leaves
      them linked both ways. */
  lemma MutualCreationSucceeds(projects: map<Id, Record>, tasks: map<Id, Record>, p: Payload, t: Payload,
                               now: int, v: Serializers)
    requires p.id !in projects && t.id !in tasks
    requires p.fk == Present(Some(t.id)) && t.fk == Present(Some(p.id))
    requires v.creatable(ProjectSchema, CreationPayload(ProjectSchema, p))
    requires v.creatable(TaskSchema, CreationPayload(TaskSchema, t))
    ensures var r := Apply(projects, tasks, ChangeSet([p], [], []), ChangeSet([t], [], []), now, v);
      && r.errors == []
      && r.projects[p.id].fk == Some(t.id) && r.tasks[t.id].fk == Some(p.id)
  {
    var pc, tc := ChangeSet([p], [], []), ChangeSet([t], [], []);
    ApplyErrors(projects, tasks, pc, tc, now, v);
    CreateFailuresNone(ProjectSchema, projects.Keys, pc.created, v);
    CreateFailuresNone(TaskSchema, tasks.Keys, tc.created, v);
    var projectIds := projects.Keys + AcceptedIds(ProjectSchema, pc.created, v);
    var taskIds := tasks.Keys + AcceptedIds(TaskSchema, tc.created, v);
    assert p.id in projectIds && t.id in taskIds;
    assert [p][..0] == [] && [t][..0] == [];
    assert LinkFailures(ProjectSchema, projectIds, taskIds, pc.created) == [];
    assert LinkFailures(TaskSchema, taskIds, projectIds, tc.created) == [];
    CrossReferencesResolve(projects, tasks, pc, tc, now, v, p, t);
  }

  /** A push keeps both tables consistent at the batch's clock, and every
      foreign key still names an existing row. */
  lemma ApplyKeepsValid(projects: map<Id, Record>, tasks: map<Id, Record>, pc: ChangeSet, tc: ChangeSet,
                        before: int, now: int, v: Serializers)
    requires ValidTables(projects, tasks, before) && before <= now
    ensures var r := Apply(projects, tasks, pc, tc, now, v); ValidTables(r.projects, r.tasks, now)
  {
    ApplyTables(projects, tasks, pc, tc, now, v);
    var r := Apply(projects, tasks, pc, tc, now, v);
    var projectIds := CreatePhase(ProjectSchema, projects, pc.created, now, v).records.Keys;
    var taskIds := CreatePhase(TaskSchema, tasks, tc.created, now, v).records.Keys;
    assert RequiresFk(ProjectSchema, v) && RequiresFk(TaskSchema, v);
    PipelineConsistent(ProjectSchema, projects, pc, tasks.Keys, taskIds, taskIds, before, now, v, DoesNotExist, DoesNotExist);
    PipelineConsistent(TaskSchema, tasks, tc, projects.Keys, projectIds, projectIds, before, now, v, DoesNotExist, DoesNotExist);
    assert r.projects.Keys == projectIds && r.tasks.Keys == taskIds;
  }

  /** After a push a row is a tombstone exactly when it was one before or its
      id is in the batch's `deleted` list: nothing un-deletes a row. */
  lemma ApplyTombstones(projects: map<Id, Record>, tasks: map<Id, Record>, pc: ChangeSet, tc: ChangeSet,
                        now: int, v: Serializers)
    ensures var r := Apply(projects, tasks, pc, tc, now, v);
      && (forall k | k in r.projects ::
            r.projects[k].deletedAt.Some? <==> (k in projects && projects[k].deletedAt.Some?) || k in pc.deleted)
      && (forall k | k in r.tasks ::
            r.tasks[k].deletedAt.Some? <==> (k in tasks && tasks[k].deletedAt.Some?) || k in tc.deleted)
  {
    ApplyTables(projects, tasks, pc, tc, now, v);
    var projectIds := CreatePhase(ProjectSchema, projects, pc.created, now, v).records.Keys;
    var taskIds := CreatePhase(TaskSchema, tasks, tc.created, now, v).records.Keys;
    PipelineTombstones(ProjectSchema, projects, pc, taskIds, taskIds, now, v, DoesNotExist, DoesNotExist);
    PipelineTombstones(TaskSchema, tasks, tc, projectIds, projectIds, now, v, DoesNotExist, DoesNotExist);
  }

  /** A project and a task created in one batch, each naming the other, end up
      linked to each other wherever they stand in their lists, provided each
      is created (or already stored) and every update in the batch that names
      either of them omits the foreign key. */
  lemma CrossReferencesResolve(projects: map<Id, Record>, tasks: map<Id, Record>, pc: ChangeSet, tc: ChangeSet,
                               now: int, v: Serializers, p: Payload, t: Payload)
    requires DistinctIds(pc.created) && DistinctIds(tc.created)
    requires p in pc.created && t in tc.created
    requires p.fk == Present(Some(t.id)) && t.fk == Present(Some(p.id))
    requires p.id in projects || v.creatable(ProjectSchema, CreationPayload(ProjectSchema, p))
    requires t.id in tasks || v.creatable(TaskSchema, CreationPayload(TaskSchema, t))
    requires forall q | q in pc.updated && q.id == p.id :: q.fk.Absent?
    requires forall q | q in tc.updated && q.id == t.id :: q.fk.Absent?
    ensures var r := Apply(projects, tasks, pc, tc, now, v);
      && p.id in r.projects && r.projects[p.id].fk == Some(t.id)
      && t.id in r.tasks && r.tasks[t.id].fk == Some(p.id)
  {
    ApplyTables(projects, tasks, pc, tc, now, v);
    var projectIds := CreatePhase(ProjectSchema, projects, pc.created, now, v).records.Keys;
    var taskIds := CreatePhase(TaskSchema, tasks, tc.created, now, v).records.Keys;
    CreatePhaseKeys(ProjectSchema, projects, pc.created, now, v);
    CreatePhaseKeys(TaskSchema, tasks, tc.created, now, v);
    assert p.id in projectIds && t.id in taskIds;
    PipelineLinks(ProjectSchema, projects, pc, taskIds, taskIds, now, v, DoesNotExist, DoesNotExist, p, t.id);
    PipelineLinks(TaskSchema, tasks, tc, projectIds, projectIds, now, v, DoesNotExist, DoesNotExist, t, p.id);
  }

  /** A push leaves every row whose id the batch does not mention exactly as it was. */
  lemma ApplyLeavesOthersAlone(projects: map<Id, Record>, tasks: map<Id, Record>, pc: ChangeSet, tc: ChangeSet,
                               now: int, v: Serializers)
    ensures var r := Apply(projects, tasks, pc, tc, now, v);
      && (forall k | k in projects && !Named(pc, k) :: r.projects[k] == projects[k])
      && (forall k | k in tasks && !Named(tc, k) :: r.tasks[k] == tasks[k])
  {
    ApplyTables(projects, tasks, pc, tc, now, v);
    var projectIds := CreatePhase(ProjectSchema, projects, pc.created, now, v).records.Keys;
    var taskIds := CreatePhase(TaskSchema, tasks, tc.created, now, v).records.Keys;
    PipelineFrame(ProjectSchema, projects, pc, taskIds, taskIds, now, v, DoesNotExist, DoesNotExist);
    PipelineFrame(TaskSchema, tasks, tc, projectIds, projectIds, now, v, DoesNotExist, DoesNotExist);
  }

  /** The database the views run on. */
  class Store {
    var projects: map<Id, Record>
    var tasks: map<Id, Record>
    /** The clock reading of the last push. */
    var now: int

    ghost predicate Valid()
      reads this
    {
      ValidTables(projects, tasks, now)
    }

    constructor (clock: int)
      ensures Valid() && projects == map[] && tasks == map[] && now == clock
    {
      projects, tasks, now := map[], map[], clock;
    }

    /** `get`: both tables classified against the cursor, with the clock
        reading to use as the next cursor. A client that sends that reading
        back before any further push receives an empty delta. */
    function Get(cursor: Cursor, clock: int): (r: PullResponse)
      reads this
      requires Valid() && now <= clock
      ensures Disjoint(r.projects) && DrawnFrom(r.projects, projects)
      ensures Disjoint(r.tasks) && DrawnFrom(r.tasks, tasks)
      ensures r.timestamp == clock
      ensures cursor.Since? && now <= cursor.ms ==>
        r.projects == Changes(map[], map[], {}) && r.tasks == Changes(map[], map[], {})
      ensures Classify(projects, Since(r.timestamp)) == Changes(map[], map[], {})
      ensures Classify(tasks, Since(r.timestamp)) == Changes(map[], map[], {})
    {
      CaughtUp(ProjectSchema, projects, tasks.Keys, now, clock);
      CaughtUp(TaskSchema, tasks, projects.Keys, now, clock);
      if cursor.Since? && now <= cursor.ms then
        CaughtUp(ProjectSchema, projects, tasks.Keys, now, cursor.ms);
        CaughtUp(TaskSchema, tasks, projects.Keys, now, cursor.ms);
        PullResponse(Classify(projects, cursor), Classify(tasks, cursor), clock)
      else
        PullResponse(Classify(projects, cursor), Classify(tasks, cursor), clock)
    }

    /** `post`: the whole batch at one clock reading; the response is success
        exactly when no item reported an error. */
    method Post(pc: ChangeSet, tc: ChangeSet, clock: int, v: Serializers) returns (errors: seq<SyncError>, success: bool)
      requires Valid() && now <= clock
      modifies this
      ensures Valid() && now == clock
      ensures PushResult(projects, tasks, errors) == Apply(old(projects), old(tasks), pc, tc, clock, v)
      ensures success <==> errors == []
    {
      ApplyKeepsValid(projects, tasks, pc, tc, now, clock, v);
      now := clock;
      errors := ApplyChanges(pc, tc, v);
      success := errors == [];
    }

    method ApplyChanges(pc: ChangeSet, tc: ChangeSet, v: Serializers) returns (errors: seq<SyncError>)
      modifies this
      ensures now == old(now)
      ensures PushResult(projects, tasks, errors) == Apply(old(projects), old(tasks), pc, tc, now, v)
    {
      var projectItems, taskItems := pc.created, tc.created;
      // Steps 1 and 2: projects without lead_task, then tasks without project.
      errors := CreateWithoutFk(projectItems, ProjectModel, v);
      var more := CreateWithoutFk(taskItems, TaskModel, v);
      errors := errors + more;
      // Steps 3 and 4: lead_task of projects, then project of tasks, after all creations.
      more := LinkForeignKeys(projectItems, ProjectModel);
      errors := errors + more;
      more := LinkForeignKeys(taskItems, TaskModel);
      errors := errors + more;
      // Step 5: updates and deletions.
      more := ApplyUpdated(pc.updated, ProjectModel, v);
      errors := errors + more;
      more := ApplyUpdated(tc.updated, TaskModel, v);
      errors := errors + more;
      more := ApplyDeleted(pc.deleted, ProjectModel);
      errors := errors + more;
      more := ApplyDeleted(tc.deleted, TaskModel);
      errors := errors + more;
    }

    /** Steps 1 and 2 of `_apply_changes`: each item is saved with its foreign
        key removed, or reported. */
    method CreateWithoutFk(items: seq<Payload>, model: Model, v: Serializers) returns (errors: seq<SyncError>)
      modifies this
      ensures now == old(now)
      ensures model == ProjectModel ==> (tasks == old(tasks) &&
        Outcome(projects, errors) == CreatePhase(ProjectSchema, old(projects), items, now, v))
      ensures model == TaskModel ==> (projects == old(projects) &&
        Outcome(tasks, errors) == CreatePhase(TaskSchema, old(tasks), items, now, v))
    {
      errors := [];
      var s := SchemaOf(model);
      var i := 0;
      while i < |items|
        invariant 0 <= i <= |items| && now == old(now)
        invariant model == ProjectModel ==> (tasks == old(tasks) &&
          Outcome(projects, errors) == CreatePhase(ProjectSchema, old(projects), items[..i], now, v))
        invariant model == TaskModel ==> (projects == old(projects) &&
          Outcome(tasks, errors) == CreatePhase(TaskSchema, old(tasks), items[..i], now, v))
      {
        var item := items[i];
        var itemData := item.(fk := Absent);
        var table := if model == ProjectModel then projects else tasks;
        if v.creatable(s, itemData) && item.id !in table {
          var obj := NewRecord(s, itemData, now);
          if model == ProjectModel {
            projects := projects[item.id := obj];
          } else {
            tasks := tasks[item.id := obj];
          }
        } else {
          errors := errors + [SyncError(CreationFailed, s.model, item.id)];
        }
        assert items[..i + 1][..i] == items[..i];
        i := i + 1;
      }
      assert items[..i] == items;
    }

    /** Steps 3 and 4 of `_apply_changes`: for each item that carries the
        foreign-key key, fetch its row and the target and link them, or report. */
    method LinkForeignKeys(items: seq<Payload>, model: Model) returns (errors: seq<SyncError>)
      modifies this
      ensures now == old(now)
      ensures model == ProjectModel ==> (tasks == old(tasks) &&
        Outcome(projects, errors) == LinkPhase(ProjectSchema, old(projects), old(tasks).Keys, items, now))
      ensures model == TaskModel ==> (projects == old(projects) &&
        Outcome(tasks, errors) == LinkPhase(TaskSchema, old(tasks), old(projects).Keys, items, now))
    {
      errors := [];
      var s := SchemaOf(model);
      var i := 0;
      while i < |items|
        invariant 0 <= i <= |items| && now == old(now)
        invariant model == ProjectModel ==> (tasks == old(tasks) &&
          Outcome(projects, errors) == LinkPhase(ProjectSchema, old(projects), old(tasks).Keys, items[..i], now))
        invariant model == TaskModel ==> (projects == old(projects) &&
          Outcome(tasks, errors) == LinkPhase(TaskSchema, old(tasks), old(projects).Keys, items[..i], now))
      {
        var item := items[i];
        if item.fk.Present? {
          var table := if model == ProjectModel then projects else tasks;
          var targets := if model == ProjectModel then tasks.Keys else projects.Keys;
          if item.id in table && item.fk.value.Some? && item.fk.value.value in targets {
            var obj := Saved(table[item.id].(fk := item.fk.value), now);
            if model == ProjectModel {
              projects := projects[item.id := obj];
            } else {
              tasks := tasks[item.id := obj];
            }
          } else {
            errors := errors + [SyncError(LinkFailed, s.model, item.id)];
          }
        }
        assert items[..i + 1][..i] == items[..i];
        i := i + 1;
      }
      assert items[..i] == items;
    }

    /** `_apply_updated`: partial updates of one table, one error per failing item. */
    method ApplyUpdated(items: seq<Payload>, model: Model, v: Serializers) returns (errors: seq<SyncError>)
      modifies this
      ensures now == old(now)
      ensures model == ProjectModel ==> (tasks == old(tasks) &&
        Outcome(projects, errors) == UpdatePhase(ProjectSchema, old(projects), old(tasks).Keys, items, now, v, DoesNotExist))
      ensures model == TaskModel ==> (projects == old(projects) &&
        Outcome(tasks, errors) == UpdatePhase(TaskSchema, old(tasks), old(projects).Keys, items, now, v, DoesNotExist))
    {
      errors := [];
      var s := SchemaOf(model);
      var i := 0;
      while i < |items|
        invariant 0 <= i <= |items| && now == old(now)
        invariant model == ProjectModel ==> (tasks == old(tasks) &&
          Outcome(projects, errors) == UpdatePhase(ProjectSchema, old(projects), old(tasks).Keys, items[..i], now, v, DoesNotExist))
        invariant model == TaskModel ==> (projects == old(projects) &&
          Outcome(tasks, errors) == UpdatePhase(TaskSchema, old(tasks), old(projects).Keys, items[..i], now, v, DoesNotExist))
      {
        var item := items[i];
        var table := if model == ProjectModel then projects else tasks;
        var targets := if model == ProjectModel then tasks.Keys else projects.Keys;
        if item.id !in table {
          errors := errors + [SyncError(DoesNotExist, s.model, item.id)];
        } else if v.updatable(s, item) && FkAccepted(s, item.fk, targets) {
          var obj := Patched(s, table[item.id], item, now);
          if model == ProjectModel {
            projects := projects[item.id := obj];
          } else {
            tasks := tasks[item.id := obj];
          }
        } else {
          errors := errors + [SyncError(UpdateFailed, s.model, item.id)];
        }
        assert items[..i + 1][..i] == items[..i];
        i := i + 1;
      }
      assert items[..i] == items;
    }

    /** `_apply_deleted`: soft deletes in one table, one error per unknown id. */
    method ApplyDeleted(ids: seq<Id>, model: Model) returns (errors: seq<SyncError>)
      modifies this
      ensures now == old(now)
      ensures model == ProjectModel ==> (tasks == old(tasks) &&
        Outcome(projects, errors) == DeletePhase(ProjectSchema, old(projects), ids, now, DoesNotExist))
      ensures model == TaskModel ==> (projects == old(projects) &&
        Outcome(tasks, errors) == DeletePhase(TaskSchema, old(tasks), ids, now, DoesNotExist))
    {
      errors := [];
      var s := SchemaOf(model);
      var i := 0;
      while i < |ids|
        invariant 0 <= i <= |ids| && now == old(now)
        invariant model == ProjectModel ==> (tasks == old(tasks) &&
          Outcome(projects, errors) == DeletePhase(ProjectSchema, old(projects), ids[..i], now, DoesNotExist))
        invariant model == TaskModel ==> (projects == old(projects) &&
          Outcome(tasks, errors) == DeletePhase(TaskSchema, old(tasks), ids[..i], now, DoesNotExist))
      {
        var id := ids[i];
        var table := if model == ProjectModel then projects else tasks;
        if id in table {
          var obj := Tombstoned(table[id], now);
          if model == ProjectModel {
            projects := projects[id := obj];
          } else {
            tasks := tasks[id := obj];
          }
        } else {
          errors := errors + [SyncError(DoesNotExist, s.model, id)];
        }
        assert ids[..i + 1][..i] == ids[..i];
        i := i + 1;
      }
      assert ids[..i] == ids;
    }
  }
}

/**
 * The task route handlers, as operations on an in-memory table of task records
 * keyed by id. Each handler is one atomic step that answers with an HTTP status.
 */
module Tasks {
  import opened Wrappers
  import opened Gamification

  type TaskId = nat

  /** A point in time as a millisecond timestamp (the value of Date.now()). */
  type Timestamp = int

  datatype Cadence = Daily | Weekly | Monthly {
    /** The name stored in the task record, which is also the key of the points table. */
    function Name(): string
    {
      match this
      case Daily => "daily"
      case Weekly => "weekly"
      case Monthly => "monthly"
    }
  }

  datatype Priority = Low | Medium | High

  datatype TaskStatus = Working | Done | Archived | Unfinished {
    function Name(): string
    {
      match this
      case Working => "working"
      case Done => "done"
      case Archived => "archived"
      case Unfinished => "unfinished"
    }
  }

  datatype Task = Task(
    owner: UserId,
    title: string,
    description: string,
    cadence: Cadence,
    priority: Priority,
    status: TaskStatus,
    startDate: Timestamp,
    endDate: Timestamp,
    completedAt: Option<Timestamp>,
    pointsAwarded: int,
    createdAt: Timestamp)

  /** The response statuses: 200, 201, 400, 401, 404 and 500. */
  datatype HttpStatus = Ok | Created | BadRequest | NotAuthorized | NotFound | ServerError

  /**
   * The fields of an update request. A string field holds "" and an optional
   * field holds None when the request leaves it out or supplies a falsy value.
   */
  datatype TaskPatch = TaskPatch(
    title: string,
    description: string,
    cadence: Option<Cadence>,
    priority: Option<Priority>,
    endDate: Option<Timestamp>)

  /** `value || old`: a truthy string replaces the old one. */
  function MergeText(value: string, current: string): (r: string)
    ensures value != "" ==> r == value
    ensures value == "" ==> r == current
  {
    if value != "" then value else current
  }

  /** `value || old` for a field that is either supplied (truthy) or not. */
  function MergeOption<T>(value: Option<T>, current: T): (r: T)
    ensures value.Some? ==> r == value.value
    ensures value.None? ==> r == current
  {
    match value
    case Some(v) => v
    case None => current
  }

  /** The record after an update: each of the five editable fields is replaced only by a truthy value. */
  function Merge(t: Task, patch: TaskPatch): (r: Task)
    ensures r.owner == t.owner && r.status == t.status && r.pointsAwarded == t.pointsAwarded
    ensures r.startDate == t.startDate && r.completedAt == t.completedAt && r.createdAt == t.createdAt
    ensures r.title == (if patch.title == "" then t.title else patch.title)
    ensures r.description == (if patch.description == "" then t.description else patch.description)
    ensures r.cadence == (if patch.cadence.None? then t.cadence else patch.cadence.value)
    ensures r.priority == (if patch.priority.None? then t.priority else patch.priority.value)
    ensures r.endDate == (if patch.endDate.None? then t.endDate else patch.endDate.value)
  {
    t.(title := MergeText(patch.title, t.title),
       description := MergeText(patch.description, t.description),
       cadence := MergeOption(patch.cadence, t.cadence),
       priority := MergeOption(patch.priority, t.priority),
       endDate := MergeOption(patch.endDate, t.endDate))
  }

  /** An update that supplies nothing leaves the record as it was. */
  lemma MergeEmptyPatch(t: Task)
    ensures Merge(t, TaskPatch("", "", None, None, None)) == t
  {
  }

  /** Sending the same update twice has the effect of sending it once. */
  lemma MergeIdempotent(t: Task, patch: TaskPatch)
    ensures Merge(Merge(t, patch), patch) == Merge(t, patch)
  {
  }

  /** The record after a successful completion at time `now`: the task is stamped with its base points only. */
  function Completed(t: Task, now: Timestamp): (r: Task)
    ensures r.status == Done && r.completedAt == Some(now)
    ensures r.pointsAwarded == BasePoints(t.cadence.Name())
    ensures r.(status := t.status, completedAt := t.completedAt, pointsAwarded := t.pointsAwarded) == t
  {
    t.(status := Done, completedAt := Some(now), pointsAwarded := BasePoints(t.cadence.Name()))
  }

  /**
   * The points stamped on a completed task never include the streak bonus:
   * on a 7th consecutive day the user gains 50 points more than the task records.
   */
  lemma BonusNotRecorded(t: Task, now: Timestamp, p: Profile, today: Day)
    requires DiffDays(today, p.lastActiveDay) == 1 && (p.streak + 1) % StreakBonusPeriod == 0
    ensures var q := AfterCompletion(p, t.cadence.Name(), today);
      q.totalPoints - p.totalPoints == Completed(t, now).pointsAwarded + StreakBonusPoints
  {
  }

  /** The query of a list request: owned by the requester, and matching each filter that is not empty. */
  predicate Selected(t: Task, requester: UserId, typeFilter: string, statusFilter: string)
  {
    && t.owner == requester
    && (typeFilter == "" || t.cadence.Name() == typeFilter)
    && (statusFilter == "" || t.status.Name() == statusFilter)
  }

  /** Every id is a task of the table, and each task is created no earlier than the next one. */
  predicate NewestFirst(tasks: map<TaskId, Task>, ids: seq<TaskId>)
  {
    && (forall i :: 0 <= i < |ids| ==> ids[i] in tasks)
    && (forall i, j :: 0 <= i < j < |ids| ==> tasks[ids[i]].createdAt >= tasks[ids[j]].createdAt)
  }

  /** Inserting a task after every newer-or-equal one and before every older one keeps the order. */
  lemma InsertionOrdered(tasks: map<TaskId, Task>, ids: seq<TaskId>, id: TaskId, i: nat)
    requires NewestFirst(tasks, ids) && id in tasks && i <= |ids|
    requires forall k :: 0 <= k < i ==> tasks[ids[k]].createdAt >= tasks[id].createdAt
    requires i < |ids| ==> tasks[ids[i]].createdAt < tasks[id].createdAt
    ensures NewestFirst(tasks, ids[..i] + [id] + ids[i..])
  {
  }

  predicate Distinct(ids: seq<TaskId>)
  {
    forall i, j :: 0 <= i < j < |ids| ==> ids[i] != ids[j]
  }

  class TaskStore {
    var tasks: map<TaskId, Task>

    constructor ()
      ensures tasks == map[]
    {
      tasks := map[];
    }

    /** Places `id` among `ids`, before the first task created earlier than it. */
    method InsertNewestFirst(ids: seq<TaskId>, id: TaskId) returns (r: seq<TaskId>)
      requires id in tasks && NewestFirst(tasks, ids)
      ensures NewestFirst(tasks, r)
      ensures |r| == |ids| + 1
      ensures forall x :: x in r <==> x in ids || x == id
      ensures Distinct(ids) && id !in ids ==> Distinct(r)
    {
      var created := tasks[id].createdAt;
      var i := 0;
      while i < |ids| && tasks[ids[i]].createdAt >= created
        invariant 0 <= i <= |ids|
        invariant forall k :: 0 <= k < i ==> tasks[ids[k]].createdAt >= created
      {
        i := i + 1;
      }
      r := ids[..i] + [id] + ids[i..];
      InsertionOrdered(tasks, ids, id, i);
      assert ids == ids[..i] + ids[i..];
    }

    /**
     * GET /: the requester's tasks, narrowed by the type and status filters
     * when they are not empty, newest first.
     */
    method List(requester: UserId, typeFilter: string, statusFilter: string) returns (ids: seq<TaskId>)
      ensures forall i :: 0 <= i < |ids| ==> ids[i] in tasks && Selected(tasks[ids[i]], requester, typeFilter, statusFilter)
      ensures forall id :: id in tasks && Selected(tasks[id], requester, typeFilter, statusFilter) ==> id in ids
      ensures forall i, j :: 0 <= i < j < |ids| ==> ids[i] != ids[j]
      ensures forall i, j :: 0 <= i < j < |ids| ==> tasks[ids[i]].createdAt >= tasks[ids[j]].createdAt
    {
      ids := [];
      var rest := tasks.Keys;
      while rest != {}
        invariant rest <= tasks.Keys
        invariant NewestFirst(tasks, ids)
        invariant forall i :: 0 <= i < |ids| ==> ids[i] !in rest && Selected(tasks[ids[i]], requester, typeFilter, statusFilter)
        invariant forall id :: id in tasks && id !in rest && Selected(tasks[id], requester, typeFilter, statusFilter) ==> id in ids
        invariant Distinct(ids)
        decreases rest
      {
        var id :| id in rest;
        rest := rest - {id};
        if Selected(tasks[id], requester, typeFilter, statusFilter) {
          var before := ids;
          ids := InsertNewestFirst(ids, id);
          forall k | 0 <= k < |ids| ensures ids[k] in before || ids[k] == id {
            assert ids[k] in ids;
          }
        }
      }
    }

    /**
     * POST /: stores a new task under a fresh id with the schema defaults.
     * A missing title, type or end date fails the schema's required checks.
     */
    method Create(id: TaskId, requester: UserId, title: string, description: string,
                  cadence: Option<Cadence>, priority: Option<Priority>, endDate: Option<Timestamp>,
                  now: Timestamp) returns (status: HttpStatus)
      requires id !in tasks
      modifies this
      ensures status == (if title == "" || cadence.None? || endDate.None? then ServerError else Created)
      ensures status == Created ==> tasks == old(tasks)[id := Task(
        requester, title, description, cadence.value, MergeOption(priority, Medium), Working,
        now, endDate.value, None, 0, now)]
      ensures status != Created ==> tasks == old(tasks)
    {
      if title == "" || cadence.None? || endDate.None? {
        return ServerError;
      }
      var task := Task(requester, title, description, cadence.value, MergeOption(priority, Medium),
                       Working, now, endDate.value, None, 0, now);
      tasks := tasks[id := task];
      status := Created;
    }

    /** PUT /:id: the owner's update merges the truthy fields into the record. */
    method Update(id: TaskId, requester: UserId, patch: TaskPatch) returns (status: HttpStatus)
      modifies this
      ensures status == (if id !in old(tasks) then NotFound
                         else if old(tasks)[id].owner != requester then NotAuthorized
                         else Ok)
      ensures tasks == if status == Ok then old(tasks)[id := Merge(old(tasks)[id], patch)] else old(tasks)
    {
      if id !in tasks {
        return NotFound;
      }
      var task := tasks[id];
      if task.owner != requester {
        return NotAuthorized;
      }
      task := Merge(task, patch);
      tasks := tasks[id := task];
      status := Ok;
    }

    /** DELETE /:id: only the owner removes a task, and only that task. */
    method Delete(id: TaskId, requester: UserId) returns (status: HttpStatus)
      modifies this
      ensures status == (if id !in old(tasks) then NotFound
                         else if old(tasks)[id].owner != requester then NotAuthorized
                         else Ok)
      ensures tasks == if status == Ok then old(tasks) - {id} else old(tasks)
    {
      if id !in tasks {
        return NotFound;
      }
      if tasks[id].owner != requester {
        return NotAuthorized;
      }
      tasks := tasks - {id};
      status := Ok;
    }

    /** PATCH /:id/archive: the owner's task becomes archived, whatever its status was. */
    method Archive(id: TaskId, requester: UserId) returns (status: HttpStatus)
      modifies this
      ensures status == (if id !in old(tasks) then NotFound
                         else if old(tasks)[id].owner != requester then NotAuthorized
                         else Ok)
      ensures tasks == if status == Ok then old(tasks)[id := old(tasks)[id].(status := Archived)] else old(tasks)
    {
      if id !in tasks {
        return NotFound;
      }
      var task := tasks[id];
      if task.owner != requester {
        return NotAuthorized;
      }
      task := task.(status := Archived);
      tasks := tasks[id := task];
      status := Ok;
    }

    /**
     * PATCH /:id/complete: `account` is the requester's user record, or null
     * when there is none. A task that is not yet done is marked done, its owner
     * is rewarded by the engine, and the task is stamped with the points it
     * earned; a task already done is refused and nobody is rewarded.
     */
    method Complete(id: TaskId, requester: UserId, account: User?, now: Timestamp, today: Day)
      returns (status: HttpStatus)
      requires account != null ==> account.id == requester
      modifies this, account
      ensures status == (if id !in old(tasks) || account == null then NotFound
                         else if old(tasks)[id].owner != requester then NotAuthorized
                         else if old(tasks)[id].status == Done then BadRequest
                         else Ok)
      ensures status != Ok ==> tasks == old(tasks)
      ensures status != Ok && account != null ==> account.Snapshot() == old(account.Snapshot())
      ensures status == Ok ==>
        && account != null && id in old(tasks)
        && tasks == old(tasks)[id := Completed(old(tasks)[id], now)]
        && account.Snapshot() == AfterCompletion(old(account.Snapshot()), old(tasks)[id].cadence.Name(), today)
    {
      if id !in tasks || account == null {
        return NotFound;
      }
      var task := tasks[id];
      if task.owner != requester {
        return NotAuthorized;
      }
      if task.status == Done {
        return BadRequest;
      }

      task := task.(status := Done, completedAt := Some(now));

      var updated := account.UpdateGamification(task.cadence.Name(), today);
      // `updated` and `account` are the same record, so this is the base points.
      task := task.(pointsAwarded := updated.xp - (account.xp - BasePoints(task.cadence.Name())));

      tasks := tasks[id := task];
      status := Ok;
    }
  }
}

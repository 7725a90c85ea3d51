/**
 * Request sequences against the task table and the engine, showing what the
 * completion guard does and does not prevent.
 */
module Scenarios {
  import opened Gamification
  import opened Tasks

  /**
   * The owner completes a task that is not done, completes it again, archives
   * it, and completes it a third time. The second completion is refused, but
   * archiving takes the task out of `done`, so the third one is rewarded
   * again: the guard stops a repeated reward only while the task stays done.
   */
  method CompleteArchiveComplete(store: TaskStore, id: TaskId, user: User, now: Timestamp, today: Day)
    returns (first: HttpStatus, second: HttpStatus, archived: HttpStatus, third: HttpStatus)
    requires id in store.tasks && store.tasks[id].owner == user.id && store.tasks[id].status != Done
    modifies store, user
    ensures first == Ok && second == BadRequest && archived == Ok && third == Ok
    ensures id in store.tasks && store.tasks[id].status == Done
    ensures user.totalPoints >= old(user.totalPoints) + 2 * BasePoints(old(store.tasks[id].cadence).Name())
  {
    var points := BasePoints(store.tasks[id].cadence.Name());
    first := store.Complete(id, user.id, user, now, today);
    assert user.totalPoints >= old(user.totalPoints) + points;
    second := store.Complete(id, user.id, user, now, today);
    archived := store.Archive(id, user.id);
    third := store.Complete(id, user.id, user, now, today);
  }

  /**
   * A user who does not own a task is refused with 401 by complete, archive,
   * update and delete, and neither the table nor that user's record changes.
   */
  method OtherUserIsRefused(store: TaskStore, id: TaskId, other: User, patch: TaskPatch, now: Timestamp, today: Day)
    returns (complete: HttpStatus, archive: HttpStatus, update: HttpStatus, delete: HttpStatus)
    requires id in store.tasks && store.tasks[id].owner != other.id
    modifies store, other
    ensures complete == NotAuthorized && archive == NotAuthorized && update == NotAuthorized && delete == NotAuthorized
    ensures store.tasks == old(store.tasks)
    ensures other.Snapshot() == old(other.Snapshot())
  {
    complete := store.Complete(id, other.id, other, now, today);
    archive := store.Archive(id, other.id);
    update := store.Update(id, other.id, patch);
    delete := store.Delete(id, other.id);
  }
}

# LevelUp task tracker: gamification engine and task routes

This project models the core of a task tracker with a gamification layer. Users
create daily, weekly and monthly tasks and complete them for points. Each
completion adds the task's points to their xp and total points, raises their
level when the total crosses a 500-point boundary, and updates their daily
streak.

- `gamification.dfy` (module `Gamification`) models the engine. It holds the
  points table (`BasePoints`), the level function (`CalculateLevel`) and the
  day-difference and four-branch streak state machine. `AfterCompletion`
  specifies one completion on a `Profile` value. The class `User` holds the
  user record. Its method `UpdateGamification` mutates that record step by step,
  as the source does, and returns the same object. Its contract ties the new
  record to `AfterCompletion` of the old one.
- `tasks.dfy` (module `Tasks`) models the task route handlers. `TaskStore`
  holds the task table as a `map` from id to `Task` record. Each state-changing
  handler is a method that answers with an `HttpStatus` and updates the map;
  `List` returns the ids of the matching tasks. `Complete` also
  updates the owner's `User` record through the engine. The requester's id, the
  requester's user record and the clock are parameters.
- `scenarios.dfy` (module `Scenarios`) states short request sequences against
  the store and the engine and proves their outcomes: the completion guard and its archive loophole, and
  the ownership checks.
- `wrappers.dfy` holds `Option`.

The engine's dates are whole day numbers, meaning timestamps already
normalised to local midnight. Task dates are millisecond timestamps;
`completedAt`, `createdAt` and `startDate` are set from the parameter `now`.

### Behaviour of the code worth noting

- The level is never lowered. Both level updates assign
  `max(level, calculateLevel(totalPoints))`, so a stored level above the one
  derived from the total is kept (`LevelOnlyRises`).
- The day difference is an absolute value. A last active day d days after
  "today" is treated like one d days before it: one day ahead counts as a
  consecutive day, two or more as a gap (`DirectionIgnored`).
- Only a `done` task is refused by the completion guard. `unfinished` and
  `archived` tasks are completed and rewarded. Archiving a completed task
  therefore lets it be rewarded again (`Scenarios.CompleteArchiveComplete`).
- `pointsAwarded` records the base points only. The engine returns the very
  record it mutated. The expression `updatedUser.xp - (user.xp - base)`
  therefore cancels to `base`, and a 7-day bonus is never recorded on the task
  (`BonusNotRecorded`).

## Model

| member | source | states |
|---|---|---|
| `Gamification.BasePoints` | server/utils/gamification.js:12 | a type in the table gets its table entry; the result is 0 exactly when the type is not in the table |
| `Gamification.BasePointsValues` | server/utils/gamification.js:1-5 | daily gives 10, weekly 30, monthly 100, and any other name 0 |
| `Gamification.CalculateLevel` | server/utils/gamification.js:7-9 | the level is the unique L with (L-1)*500 <= total < L*500, so it is floor(total/500)+1, and it is at least 1 for a non-negative total |
| `Gamification.LevelMonotone` | server/utils/gamification.js:7-9 | a larger total never gives a smaller level |
| `Gamification.FirstLevelBand` | server/utils/gamification.js:7-9 | level 1 covers exactly the totals 0..499 |
| `Gamification.DiffDays` | server/utils/gamification.js:32-33 | the day difference is the distance between the two days, whichever is later |
| `Gamification.DiffDaysSymmetric` | server/utils/gamification.js:29-33 | the difference is symmetric in the two dates and is 0 only for the same day |
| `Gamification.StreakBranchOf` | server/utils/gamification.js:35-51 | exactly one of four branches fires: consecutive iff diff = 1, gap iff diff > 1, first-ever iff diff = 0 and streak = 0, same-day iff diff = 0 and streak != 0 |
| `Gamification.NextStreak` | server/utils/gamification.js:35-51 | diff = 1 gives streak + 1, diff > 1 gives 1, and the same day gives 1 from a zero streak and keeps any other streak |
| `Gamification.StreakBonus` | server/utils/gamification.js:39-43 | the bonus is 0 or 50, and it is 50 iff the day is consecutive and the new streak is a multiple of 7 |
| `Gamification.NewProfile` | server/models/User.js:18-37 | a new account has xp 0, total 0, streak 0, last active on its creation day, and a level consistent with its total |
| `Gamification.Award` | server/utils/gamification.js:12-43 | one completion adds the base points, or the base points plus 50 |
| `Gamification.AfterCompletion` | server/utils/gamification.js:11-62 | xp minus total points is preserved, the total never falls, the level never falls, and the last active day becomes today |
| `Gamification.AwardIsBaseOrBonus` | server/utils/gamification.js:12-43 | xp and total grow by the same amount, which is base or base + 50 |
| `Gamification.LevelOnlyRises` | server/utils/gamification.js:17-59 | the new level is the larger of the old level and the level of the new total |
| `Gamification.LevelStaysDerived` | server/utils/gamification.js:55-59 | a level that agreed with the total before a completion still agrees after it |
| `Gamification.ConsecutiveDayStreak` | server/utils/gamification.js:35-43 | diff = 1: the streak becomes old + 1, and the 50-point bonus is added iff the new streak is a multiple of 7 |
| `Gamification.GapResetsStreak` | server/utils/gamification.js:44-46 | diff > 1: the streak becomes exactly 1 and no bonus is added |
| `Gamification.SameDayStreak` | server/utils/gamification.js:47-51 | same day: a zero streak becomes 1, any other streak is kept, and no bonus is added |
| `Gamification.DirectionIgnored` | server/utils/gamification.js:32 | a last active day mirrored around today gives the same result: a last active day d days in the future is treated like one d days in the past, so one day ahead counts as a consecutive day and two or more as a gap |
| `Gamification.WorkedExamples` | server/utils/gamification.js:11-62 | a first daily task gives 10 points and streak 1; a 7th consecutive day adds 60; 495 + monthly gives level 2; a gap resets the streak |
| `Gamification.User.constructor` | server/models/User.js:18-37 | a new user record carries the schema defaults level 1, xp 0, totalPoints 0, streak 0 |
| `Gamification.User.UpdateGamification` | server/utils/gamification.js:11-62 | the mutated record equals `AfterCompletion` of the old record, and the returned record is the same object |
| `Tasks.MergeText` | server/routes/tasks.js:70-71 | a non-empty string replaces the field, an empty one keeps the old value |
| `Tasks.MergeOption` | server/routes/tasks.js:72-74 | a supplied value replaces the field, an absent one keeps the old value |
| `Tasks.Merge` | server/routes/tasks.js:70-74 | title, description, type, priority and endDate are each replaced only by a truthy value; owner, status, pointsAwarded, startDate, completedAt and createdAt are untouched |
| `Tasks.MergeEmptyPatch` | server/routes/tasks.js:70-74 | an update that supplies nothing leaves the record unchanged |
| `Tasks.MergeIdempotent` | server/routes/tasks.js:70-74 | applying the same update twice equals applying it once |
| `Tasks.Completed` | server/routes/tasks.js:126-131 | a completed record is done, stamped with the completion time and the base points of its type, and otherwise unchanged |
| `Tasks.BonusNotRecorded` | server/routes/tasks.js:130-131 | on a bonus day the user gains the recorded pointsAwarded plus 50 |
| `Tasks.TaskStore.InsertNewestFirst` | server/routes/tasks.js:22 | inserting a task keeps the list newest first, adds exactly that id, and keeps it free of repeats |
| `Tasks.TaskStore.List` | server/routes/tasks.js:11-23 | the result holds exactly the requester's tasks that match the non-empty type and status filters, each once, ordered by createdAt descending |
| `Tasks.TaskStore.Create` | server/routes/tasks.js:32-53 | a request without title, type or end date fails with 500 and stores nothing; otherwise it stores one new working task with priority defaulting to medium and 0 points |
| `Tasks.TaskStore.Update` | server/routes/tasks.js:58-84 | missing task gives 404, non-owner gives 401, both with no change; the owner's update stores `Merge` of the record and changes nothing else |
| `Tasks.TaskStore.Delete` | server/routes/tasks.js:89-107 | missing task gives 404, non-owner gives 401 and the task remains; the owner removes exactly that task |
| `Tasks.TaskStore.Archive` | server/routes/tasks.js:160-178 | missing task gives 404, non-owner gives 401; the owner's task becomes archived from any status, with nothing else changed |
| `Tasks.TaskStore.Complete` | server/routes/tasks.js:112-155 | missing task or user gives 404, non-owner 401, an already done task 400, each with neither the task nor the user changed; otherwise the task becomes `Completed` and the user record becomes `AfterCompletion` of the old one |
| `Scenarios.CompleteArchiveComplete` | server/routes/tasks.js:122-170 | for any owned task not yet done: complete succeeds, a second complete is refused with 400, archive succeeds, and a third complete succeeds again, so the owner gains at least twice the task's base points |
| `Scenarios.OtherUserIsRefused` | server/routes/tasks.js:66-166 | complete, archive, update and delete by a non-owner all answer 401 and leave the table and that user's record unchanged |

## Left out

- Millisecond date arithmetic, `setHours` local-midnight normalisation, time zones and DST. Days are integers. On a 25-hour DST day `Math.ceil` would give a difference of 2 where the model gives 1.
- The clock. `new Date()` and `Date.now()` become the parameters `today` (a day number) and `now` (a timestamp), and the model does not relate the two.
- Authentication. The `protect` middleware is not part of this model. The requester's id is a parameter, and `account` is the result of looking up that id (null when there is none).
- Async execution, concurrent requests, and persistence failures. Each handler is one atomic step. Two concurrent completions could double-award, and the model does not capture that. The `catch` blocks that answer 500 on a database error are not modelled. The only 500 modelled is the schema's required-field check on creation.
- Schema enum validation on update and creation. The request values range over the enum datatypes, so a non-enum type or priority (which the schema would reject with 500) cannot be expressed.
- Tasks.TaskStore.Create: the fresh id that the database generates is a parameter that must be unused.
- Tasks.TaskStore.List: returns the ids of the matching tasks rather than the documents, which are `tasks[id]`. The database query and sort are modelled by a loop, and tasks with equal `createdAt` come out in an unspecified order.
- Tasks.TaskStore.Complete: the response body, which echoes the user's level, xp, total points and streak, is not modelled.
- Gamification.BasePoints: a lookup by an inherited object property name such as `toString` is not modelled. Stored task types are always one of the three enum names.
- Points, levels and streaks are unbounded integers, not IEEE doubles. No value in reach comes near 2^53.
- The overdue sweep (`server/utils/scheduler.js`) is an external transition from `working` to `unfinished`. A completion accepts any non-done status, which covers the sweep's output.
- The React pages and components, the Zustand stores, server wiring, password hashing and the save hook are not part of this model.

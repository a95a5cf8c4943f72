/** The relational store behind the Django models, as one object whose tables the
    views and workers update: users keyed by telegram id, subscriptions in insertion
    order (a row's position is its primary key; rows are never deleted), tasks keyed
    by id, and the Celery queue of pipeline runs waiting to be executed. */
module Store {
  import opened Wrappers
  import opened Models

  /** One queued Celery job: the worker to run and the task it runs on. */
  datatype Job =
    | ProcessTaskImageJob(taskId: TaskId)
    | ProcessTextTaskJob(taskId: TaskId)
    | ProcessTaskTextJob(taskId: TaskId)

  /** A row saved twice holds what the second save wrote. */
  lemma OverwriteRow(tasks: map<TaskId, Task>, id: TaskId, first: Task, second: Task)
    ensures tasks[id := first][id := second] == tasks[id := second]
  {
  }

  class Database {
    var users: map<int, User>
    var subscriptions: seq<Subscription>
    var tasks: map<TaskId, Task>
    var nextTaskId: TaskId
    var queue: seq<Job>

    /** Keys agree with the rows, every foreign key resolves and ids are never reused. */
    ghost predicate Valid()
      reads this
    {
      && (forall k :: k in users ==> users[k].telegramId == k)
      && (forall i :: 0 <= i < |subscriptions| ==> subscriptions[i].owner in users)
      && (forall id :: id in tasks ==> id < nextTaskId && tasks[id].id == id && tasks[id].owner in users)
    }

    constructor ()
      ensures Valid()
      ensures users == map[] && subscriptions == [] && tasks == map[] && queue == []
    {
      users := map[];
      subscriptions := [];
      tasks := map[];
      nextTaskId := 0;
      queue := [];
    }

    /** `User.objects.get_or_create(telegram_id=..., defaults=...)`: the stored row, or `candidate`
        inserted when there is none. */
    method GetOrCreateUser(candidate: User) returns (u: User, created: bool)
      requires Valid()
      modifies this`users
      ensures Valid()
      ensures created == (candidate.telegramId !in old(users))
      ensures u == if created then candidate else old(users)[candidate.telegramId]
      ensures users == old(users)[candidate.telegramId := u]
      ensures subscriptions == old(subscriptions) && tasks == old(tasks)
      ensures nextTaskId == old(nextTaskId) && queue == old(queue)
    {
      if candidate.telegramId in users {
        u, created := users[candidate.telegramId], false;
      } else {
        u, created := candidate, true;
        users := users[candidate.telegramId := candidate];
      }
    }

    /** `user.save()` on an existing row. */
    method SaveUser(u: User)
      requires Valid() && u.telegramId in users
      modifies this`users
      ensures Valid()
      ensures users == old(users)[u.telegramId := u]
    {
      users := users[u.telegramId := u];
    }

    /** `Task.objects.create(...)`: inserts a pending task under an id never used before. */
    method CreateTask(owner: int, description: string, image: Option<string>, source: Option<Source>, now: Timestamp)
      returns (t: Task)
      requires Valid() && owner in users
      modifies this`tasks, this`nextTaskId
      ensures Valid()
      ensures t.id == old(nextTaskId) && t.id !in old(tasks)
      ensures t == NewTask(t.id, owner, description, image, source, now)
      ensures tasks == old(tasks)[t.id := t]
      ensures nextTaskId == old(nextTaskId) + 1
    {
      t := NewTask(nextTaskId, owner, description, image, source, now);
      tasks := tasks[t.id := t];
      nextTaskId := nextTaskId + 1;
    }

    /** `Task.save()`: the hook stamps a completed task that has no completion time,
        then the row is written whole. */
    method SaveTask(t: Task, now: Timestamp)
      requires Valid() && t.id in tasks && t.owner in users
      modifies this`tasks
      ensures Valid()
      ensures tasks == old(tasks)[t.id := StampCompletion(t, now)]
    {
      var row := t;
      if row.status == Completed && row.completedAt.None? {
        row := row.(completedAt := Some(now));
      }
      tasks := tasks[t.id := row];
    }

    /** `Subscription.objects.create(...)`: appends a row; its position is its key. */
    method InsertSubscription(s: Subscription) returns (pk: nat)
      requires Valid() && s.owner in users
      modifies this`subscriptions
      ensures Valid()
      ensures pk == |old(subscriptions)|
      ensures subscriptions == old(subscriptions) + [s]
    {
      pk := |subscriptions|;
      subscriptions := subscriptions + [s];
    }

    /** `subscription.save()` on the existing row `pk`. */
    method SaveSubscription(pk: nat, s: Subscription)
      requires Valid() && pk < |subscriptions| && s.owner in users
      modifies this`subscriptions
      ensures Valid()
      ensures subscriptions == old(subscriptions)[pk := s]
    {
      subscriptions := subscriptions[pk := s];
    }

    /** `<worker>.delay(task_id)`: schedules one run. */
    method Enqueue(job: Job)
      requires Valid()
      modifies this`queue
      ensures Valid()
      ensures queue == old(queue) + [job]
    {
      queue := queue + [job];
    }
  }
}

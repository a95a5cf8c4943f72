/** `TaskCreateSerializer.create`, the only path that both checks the admission rule and
    uses up a free solution, and the `user_info` field of the task serializer. */
module Serializers {
  import opened Wrappers
  import opened Models
  import opened Store

  /** The validation error raised when a user without a subscription has no free
      solution left. */
  const TRIALS_EXHAUSTED: string := "Бесплатные решения закончились. Оформите подписку."

  /** The user row `get_or_create` makes for an unknown telegram id: no username, the
      placeholder first name, and the telegram id as chat. */
  function SerializerUser(telegramId: int, now: Timestamp): (u: User)
    ensures u.telegramId == telegramId && u.chatId == telegramId && u.trialsUsed == 0
  {
    NewUser(telegramId, None, DEFAULT_FIRST_NAME, telegramId, now)
  }

  /** The submitter after an admitted submission, or `None` when the submission is
      refused: a subscriber is left as is, anyone else uses up one free solution. */
  function Admit(u: User, subs: seq<Subscription>, now: Timestamp): (r: Option<User>)
    ensures r.None? <==> !MayCreateTask(u, subs, now)
    ensures r.Some? ==> r.value.telegramId == u.telegramId && r.value.trialsUsed >= u.trialsUsed
  {
    if !HasActiveSubscription(subs, u.telegramId, now) && TrialsLeft(u) <= 0 then None
    else if !HasActiveSubscription(subs, u.telegramId, now) then Some(u.(trialsUsed := u.trialsUsed + 1))
    else Some(u)
  }

  /** Refused exactly when the admission rule says no; a subscriber's counter stays, a
      non-subscriber's rises by one and never beyond the limit, so one free solution
      fewer is left. */
  lemma AdmitTrials(u: User, subs: seq<Subscription>, now: Timestamp)
    ensures var r := Admit(u, subs, now);
            && (r.None? <==> !MayCreateTask(u, subs, now))
            && (r.Some? ==> r.value.(trialsUsed := u.trialsUsed) == u)
            && (r.Some? && HasActiveSubscription(subs, u.telegramId, now) ==> r.value.trialsUsed == u.trialsUsed)
            && (r.Some? && !HasActiveSubscription(subs, u.telegramId, now) ==>
                  && r.value.trialsUsed == u.trialsUsed + 1
                  && r.value.trialsUsed <= TRIAL_LIMIT
                  && TrialsLeft(r.value) == TrialsLeft(u) - 1)
  {
    if !HasActiveSubscription(subs, u.telegramId, now) {
      TrialBoundary(u, subs, now);
    }
  }

  /** Without a subscription a new user gets exactly `TRIAL_LIMIT` = 3 submissions:
      the first three are admitted and the fourth is refused. */
  lemma {:induction false} ThreeFreeSolutions(telegramId: int, subs: seq<Subscription>, now: Timestamp)
    requires !HasActiveSubscription(subs, telegramId, now)
    ensures var u0 := SerializerUser(telegramId, now);
            && Admit(u0, subs, now).Some?
            && Admit(Admit(u0, subs, now).value, subs, now).Some?
            && Admit(Admit(Admit(u0, subs, now).value, subs, now).value, subs, now).Some?
            && Admit(Admit(Admit(Admit(u0, subs, now).value, subs, now).value, subs, now).value, subs, now).None?
  {
    var u0 := SerializerUser(telegramId, now);
    AdmitTrials(u0, subs, now);
    var u1 := Admit(u0, subs, now).value;
    AdmitTrials(u1, subs, now);
    var u2 := Admit(u1, subs, now).value;
    AdmitTrials(u2, subs, now);
    var u3 := Admit(u2, subs, now).value;
    AdmitTrials(u3, subs, now);
  }

  /** `TaskCreateSerializer.create`: finds or creates the user, refuses the submission
      when the admission rule says no (the user row created by the lookup stays), and
      otherwise creates the task and records the free solution used. */
  method CreateTask(db: Database, telegramId: int, description: string, image: Option<string>, source: Option<Source>,
                    now: Timestamp)
    returns (r: Result<TaskId>)
    requires db.Valid()
    modifies db
    ensures db.Valid()
    ensures var u := if telegramId in old(db.users) then old(db.users)[telegramId] else SerializerUser(telegramId, now);
            var admitted := Admit(u, old(db.subscriptions), now);
            && (r.Err? <==> admitted.None?)
            && (r.Err? ==> r.message == TRIALS_EXHAUSTED && db.users == old(db.users)[telegramId := u]
                           && db.tasks == old(db.tasks) && db.nextTaskId == old(db.nextTaskId))
            && (r.Ok? ==> && db.users == old(db.users)[telegramId := admitted.value]
                          && r.value == old(db.nextTaskId) && r.value !in old(db.tasks)
                          && db.tasks == old(db.tasks)[r.value := NewTask(r.value, telegramId, description, image, source, now)]
                          && db.nextTaskId == old(db.nextTaskId) + 1)
    ensures db.subscriptions == old(db.subscriptions) && db.queue == old(db.queue)
  {
    var user, created := db.GetOrCreateUser(SerializerUser(telegramId, now));
    if !HasActiveSubscription(db.subscriptions, user.telegramId, now) && TrialsLeft(user) <= 0 {
      return Err(TRIALS_EXHAUSTED);
    }
    var task := db.CreateTask(telegramId, description, image, source, now);
    if !HasActiveSubscription(db.subscriptions, user.telegramId, now) {
      user := user.(trialsUsed := user.trialsUsed + 1);
      db.SaveUser(user);
    }
    r := Ok(task.id);
  }

  /** The `user_info` of a serialized task. */
  datatype UserInfo = UserInfo(telegramId: int, firstName: string, username: Option<string>)

  /** `TaskSerializer.get_user_info`: the telegram id, first name and username of the
      task's owner. */
  function TaskUserInfo(t: Task, users: map<int, User>): (info: UserInfo)
    requires t.owner in users
  {
    var u := users[t.owner];
    UserInfo(u.telegramId, u.firstName, u.username)
  }

  /** In a consistent database the info names the task's owner, and shows the owner's
      current first name and username. */
  lemma TaskUserInfoNamesOwner(db: Database, id: TaskId)
    requires db.Valid() && id in db.tasks
    ensures db.tasks[id].owner in db.users
    ensures var info := TaskUserInfo(db.tasks[id], db.users);
            && info.telegramId == db.tasks[id].owner
            && info.firstName == db.users[db.tasks[id].owner].firstName
            && info.username == db.users[db.tasks[id].owner].username
  {
  }
}

/** The three persistent entities of the bot (User, Subscription, Task), their
    field defaults and the derived entitlement predicates of
    staticfiles/staticfiles/bot/models.py.  Timestamps are whole seconds and
    money is in kopecks (minor units of the rouble). */
module Models {
  import opened Wrappers

  /** Free solutions granted before a subscription is needed. */
  const TRIAL_LIMIT: int := 3
  /** Length of one paid period. */
  const SUBSCRIPTION_DAYS: int := 30
  const SECONDS_PER_DAY: int := 86400
  const SUBSCRIPTION_PERIOD: int := SUBSCRIPTION_DAYS * SECONDS_PER_DAY
  /** The default price 290.00 RUB, in kopecks. */
  const DEFAULT_AMOUNT: int := 29000
  const DEFAULT_CURRENCY: string := "RUB"
  const DEFAULT_PAYMENT_METHOD: string := "yookassa"

  /** The first name given to a user created by a REST endpoint that has none. */
  const DEFAULT_FIRST_NAME: string := "Пользователь"

  type Timestamp = int
  /** Raw bytes of an uploaded or rendered picture. */
  type Blob = seq<bv8>
  /** Primary key of a Task (a UUID in the database; any fresh value will do). */
  type TaskId = nat

  /** A Telegram user; `telegramId` is the unique key. */
  datatype User = User(
    telegramId: int,
    username: Option<string>,
    firstName: string,
    chatId: int,
    registeredAt: Timestamp,
    trialsUsed: int,
    isActive: bool)

  datatype SubscriptionStatus = Active | Expired | Cancelled

  /** One subscription row; `owner` is the telegram id of the owning user.
      `end` is optional because the derived predicates test it for presence. */
  datatype Subscription = Subscription(
    owner: int,
    start: Timestamp,
    end: Option<Timestamp>,
    autoRenewal: bool,
    paymentId: Option<string>,
    status: SubscriptionStatus,
    amount: int,
    currency: string,
    paymentMethod: string,
    createdAt: Timestamp)

  datatype TaskStatus = Pending | Processing | Completed | Failed

  datatype Source = TextSource | ImageSource

  /** A submitted problem; `image` is the stored file name of the photo. */
  datatype Task = Task(
    id: TaskId,
    owner: int,
    description: string,
    image: Option<string>,
    source: Source,
    createdAt: Timestamp,
    status: TaskStatus,
    solution: string,
    solutionImage: Option<Blob>,
    completedAt: Option<Timestamp>,
    errorMessage: Option<string>)

  /** A user row as the model's field defaults build it: no trial used yet, active. */
  function NewUser(telegramId: int, username: Option<string>, firstName: string, chatId: int, now: Timestamp): User
  {
    User(telegramId, username, firstName, chatId, now, 0, true)
  }

  /** The chat a notice about a task goes to: the stored chat id, or the telegram id
      when no chat id is set. */
  function NoticeChat(u: User): (c: int)
    ensures c == u.chatId || c == u.telegramId
    ensures u.chatId == 0 ==> c == u.telegramId
    ensures u.chatId != 0 ==> c == u.chatId
  {
    if u.chatId != 0 then u.chatId else u.telegramId
  }

  /** A subscription row with every field the caller does not give at its default:
      active, auto-renewing, 290.00 RUB paid through YooKassa. */
  function NewSubscription(owner: int, start: Timestamp, end: Option<Timestamp>, paymentId: Option<string>, now: Timestamp): Subscription
  {
    Subscription(owner, start, end, true, paymentId, Active, DEFAULT_AMOUNT, DEFAULT_CURRENCY, DEFAULT_PAYMENT_METHOD, now)
  }

  /** A task row as created: pending, with no solution and no timestamps;
      the source defaults to text when the caller gives none. */
  function NewTask(id: TaskId, owner: int, description: string, image: Option<string>, source: Option<Source>, now: Timestamp): Task
  {
    Task(id, owner, description, image, source.GetOr(TextSource), now, Pending, "", None, None, None)
  }

  /** `User.trials_left`: free solutions still available, never negative. */
  function TrialsLeft(u: User): (r: int)
    ensures r >= 0
    ensures r == 0 <==> u.trialsUsed >= TRIAL_LIMIT
    ensures r > 0 ==> r + u.trialsUsed == TRIAL_LIMIT
  {
    if TRIAL_LIMIT - u.trialsUsed > 0 then TRIAL_LIMIT - u.trialsUsed else 0
  }

  /** `Subscription.is_active`: status active and an end date still in the future. */
  predicate IsActive(s: Subscription, now: Timestamp)
  {
    s.status == Active && s.end.Some? && s.end.value > now
  }

  /** Expired and cancelled rows, and rows without an end date, never entitle. */
  lemma InactiveRows(s: Subscription, now: Timestamp)
    ensures s.status != Active ==> !IsActive(s, now)
    ensures s.end.None? ==> !IsActive(s, now)
    ensures IsActive(s, now) ==> forall t :: t <= now ==> IsActive(s, t)
  {
  }

  /** `Subscription.days_left`: whole days from now to the end of an active row, else 0. */
  function DaysLeft(s: Subscription, now: Timestamp): (d: int)
    ensures d >= 0
    ensures !IsActive(s, now) ==> d == 0
    ensures IsActive(s, now) ==> d * SECONDS_PER_DAY <= s.end.value - now < (d + 1) * SECONDS_PER_DAY
  {
    if IsActive(s, now) then (s.end.value - now) / SECONDS_PER_DAY else 0
  }

  /** The row is one of `owner`'s subscriptions that currently entitles. */
  predicate Entitles(s: Subscription, owner: int, now: Timestamp)
  {
    s.owner == owner && IsActive(s, now)
  }

  /** `User.has_active_subscription`: some row of the user's is active now. */
  predicate HasActiveSubscription(subs: seq<Subscription>, owner: int, now: Timestamp)
  {
    exists i :: 0 <= i < |subs| && Entitles(subs[i], owner, now)
  }

  /** `User.active_subscription`: the position of the entitling row that comes first in
      the `-created_at` ordering, i.e. the one created last; among rows created at the
      same instant, the one inserted last. */
  function ActiveSubscription(subs: seq<Subscription>, owner: int, now: Timestamp): (r: Option<nat>)
    ensures r.None? <==> !HasActiveSubscription(subs, owner, now)
    ensures r.Some? ==> r.value < |subs| && Entitles(subs[r.value], owner, now)
    ensures r.Some? ==> forall j :: 0 <= j < |subs| && Entitles(subs[j], owner, now) ==>
                          subs[j].createdAt <= subs[r.value].createdAt
    ensures r.Some? ==> forall j :: r.value < j < |subs| && Entitles(subs[j], owner, now) ==>
                          subs[j].createdAt < subs[r.value].createdAt
    decreases |subs|
  {
    if subs == [] then None
    else
      var last := |subs| - 1;
      var prev := ActiveSubscription(subs[..last], owner, now);
      assert forall j :: 0 <= j < last ==> subs[..last][j] == subs[j];
      if Entitles(subs[last], owner, now) && (prev.None? || subs[prev.value].createdAt <= subs[last].createdAt) then
        Some(last)
      else
        prev
  }

  /** The admission rule shared by every submission path: a current subscription or a
      free solution left. */
  predicate MayCreateTask(u: User, subs: seq<Subscription>, now: Timestamp)
  {
    HasActiveSubscription(subs, u.telegramId, now) || TrialsLeft(u) > 0
  }

  /** With `TRIAL_LIMIT` = 3: a non-subscriber who has used two trials is admitted,
      one who has used three is not. */
  lemma TrialBoundary(u: User, subs: seq<Subscription>, now: Timestamp)
    requires !HasActiveSubscription(subs, u.telegramId, now)
    ensures u.trialsUsed == TRIAL_LIMIT - 1 ==> MayCreateTask(u, subs, now)
    ensures u.trialsUsed >= TRIAL_LIMIT ==> !MayCreateTask(u, subs, now)
    ensures MayCreateTask(u, subs, now) ==> u.trialsUsed + 1 <= TRIAL_LIMIT
  {
  }

  /** A fresh subscription row for `[start, start + period)` entitles exactly inside
      that window's remaining part. */
  lemma NewSubscriptionWindow(owner: int, start: Timestamp, paymentId: Option<string>, now: Timestamp, t: Timestamp)
    ensures IsActive(NewSubscription(owner, start, Some(start + SUBSCRIPTION_PERIOD), paymentId, now), t)
            <==> t < start + SUBSCRIPTION_PERIOD
  {
  }

  /** `Task.save`'s hook: saving a completed task without a completion time stamps it. */
  function StampCompletion(t: Task, now: Timestamp): (r: Task)
    ensures r.(completedAt := t.completedAt) == t
    ensures t.status != Completed ==> r == t
    ensures t.completedAt.Some? ==> r == t
    ensures t.status == Completed ==> r.completedAt == Some(t.completedAt.GetOr(now))
  {
    if t.status == Completed && t.completedAt.None? then t.(completedAt := Some(now)) else t
  }

  /** Saving twice stamps once: the first stamp is kept by every later save. */
  lemma StampOnce(t: Task, now1: Timestamp, now2: Timestamp)
    ensures StampCompletion(StampCompletion(t, now1), now2) == StampCompletion(t, now1)
    ensures StampCompletion(t, now1).status == Completed ==> StampCompletion(t, now1).completedAt.Some?
  {
  }

  /** A freshly created task is not stamped by the hook. */
  lemma NewTaskUnstamped(id: TaskId, owner: int, description: string, image: Option<string>, source: Option<Source>, now: Timestamp)
    ensures var t := NewTask(id, owner, description, image, source, now);
            StampCompletion(t, now) == t && t.status == Pending && t.completedAt.None?
  {
  }
}

/** The three pieces of logic in the Django admin: the short description in the task
    list, the date defaults of a subscription saved from the admin form, and the
    subscription block on a user's page. */
module Admin {
  import opened Wrappers
  import opened Text
  import opened Models
  import opened Store

  /** Characters of a description shown in the task list. */
  const SHORT_LIMIT: nat := 100

  /** `TaskAdmin.description_short`. */
  function DescriptionShort(description: string): (r: string)
    ensures |r| <= SHORT_LIMIT + 3
    ensures |description| <= SHORT_LIMIT ==> r == description
  {
    if |description| > SHORT_LIMIT then description[..SHORT_LIMIT] + "..." else description
  }

  /** A description that fits is shown as it is; a longer one is its first 100
      characters followed by "...", so the column never exceeds 103 characters and
      always starts with the description's own beginning. */
  lemma DescriptionShortBounds(description: string)
    ensures var r := DescriptionShort(description);
            && (|description| <= SHORT_LIMIT ==> r == description)
            && (|description| > SHORT_LIMIT ==> r == Take(description, SHORT_LIMIT) + "..." && |r| == SHORT_LIMIT + 3)
            && |r| <= SHORT_LIMIT + 3
            && r[..|Take(description, SHORT_LIMIT)|] == Take(description, SHORT_LIMIT)
  {
  }

  /** `SubscriptionAdmin.save_model` before the row is written: a new subscription
      starts now and, when the form left the end empty, runs one period; an edited one
      keeps the dates from the form. */
  function AdminSaved(form: Subscription, change: bool, now: Timestamp): (s: Subscription)
    ensures s.(start := form.start, end := form.end) == form
    ensures change ==> s == form
    ensures !change ==> s.start == now
    ensures !change && form.end.Some? ==> s.end == form.end
    ensures !change && form.end.None? ==> s.end == Some(now + SUBSCRIPTION_PERIOD)
  {
    if change then form
    else if form.end.None? then form.(start := now, end := Some(now + SUBSCRIPTION_PERIOD))
    else form.(start := now)
  }

  /** A subscription added from the admin with the end left empty and status active
      entitles its owner for the whole period that starts at the save.  The end date
      column is required (neither `null` nor `blank`), so the admin form itself never
      submits an empty end: this branch of `save_model` is reached only by callers that
      bypass the form's validation. */
  lemma AdminGrantEntitles(form: Subscription, now: Timestamp, t: Timestamp)
    requires form.status == Active && form.end.None?
    requires now <= t < now + SUBSCRIPTION_PERIOD
    ensures IsActive(AdminSaved(form, false, now), t)
    ensures DaysLeft(AdminSaved(form, false, now), now) == SUBSCRIPTION_DAYS
  {
  }

  /** Saving the same edit twice is saving it once. */
  lemma AdminEditIdempotent(form: Subscription, now1: Timestamp, now2: Timestamp)
    ensures AdminSaved(AdminSaved(form, true, now1), true, now2) == AdminSaved(form, true, now1)
    ensures AdminSaved(AdminSaved(form, false, now1), true, now2) == AdminSaved(form, false, now1)
  {
  }

  /** The admin's save: `pk` names the row being edited, or none for an added row. */
  method SaveModel(db: Database, form: Subscription, pk: Option<nat>, now: Timestamp) returns (key: nat)
    requires db.Valid() && form.owner in db.users
    requires pk.Some? ==> pk.value < |db.subscriptions|
    modifies db`subscriptions
    ensures db.Valid()
    ensures pk.None? ==> key == |old(db.subscriptions)| && db.subscriptions == old(db.subscriptions) + [AdminSaved(form, false, now)]
    ensures pk.Some? ==> key == pk.value && db.subscriptions == old(db.subscriptions)[key := AdminSaved(form, true, now)]
  {
    var obj := form;
    if pk.None? {
      obj := obj.(start := now);
      if obj.end.None? {
        obj := obj.(end := Some(now + SUBSCRIPTION_DAYS * SECONDS_PER_DAY));
      }
      key := db.InsertSubscription(obj);
    } else {
      key := pk.value;
      db.SaveSubscription(key, obj);
    }
  }

  /** What `UserAdmin.subscription_actions` renders. */
  datatype ActionsBlock =
    | ActiveBlock(pk: nat, status: SubscriptionStatus, end: Timestamp, autoRenewal: bool)  // with an edit link to row `pk`
    | InactiveBlock(trialsLeft: int)                                                   // with a link to grant one

  function SubscriptionActions(u: User, subs: seq<Subscription>, now: Timestamp): (b: ActionsBlock)
    ensures b.ActiveBlock? <==> HasActiveSubscription(subs, u.telegramId, now)
    ensures b.InactiveBlock? ==> b.trialsLeft >= 0
  {
    if HasActiveSubscription(subs, u.telegramId, now) then
      var pk := ActiveSubscription(subs, u.telegramId, now).value;
      ActiveBlock(pk, subs[pk].status, subs[pk].end.value, subs[pk].autoRenewal)
    else InactiveBlock(TrialsLeft(u))
  }

  /** The active block appears exactly for a subscriber and shows the row the rest of
      the system treats as current; otherwise the block shows the free solutions left. */
  lemma SubscriptionActionsBranches(u: User, subs: seq<Subscription>, now: Timestamp)
    ensures var b := SubscriptionActions(u, subs, now);
            && (b.ActiveBlock? <==> HasActiveSubscription(subs, u.telegramId, now))
            && (b.ActiveBlock? ==> && Some(b.pk) == ActiveSubscription(subs, u.telegramId, now)
                                   && b.status == Active && b.end > now
                                   && b.autoRenewal == subs[b.pk].autoRenewal)
            && (b.InactiveBlock? ==> b.trialsLeft == TrialsLeft(u) && b.trialsLeft >= 0)
  {
  }
}

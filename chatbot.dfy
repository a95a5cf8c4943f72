/** The Telegram bot's handlers that touch the database: a task sent as text or as a
    photo, the "solve a task" menu, the button dispatch and the bot's own cancelling of
    auto-renewal.  Replies are recorded as values; the Telegram calls themselves are
    outside the model. */
module Bot {
  import opened Wrappers
  import opened Text
  import opened Models
  import opened Store
  import Payments

  /** Who sent an update: the Telegram account and the chat it came from. */
  datatype Sender = Sender(telegramId: int, username: Option<string>, firstName: string, chatId: int)

  /** The user row after the handler's `get_or_create` and, for a known user, the
      refresh of username, first name and chat from the update. */
  function Registered(existing: Option<User>, s: Sender, now: Timestamp): (u: User)
    ensures u.username == s.username && u.firstName == s.firstName && u.chatId == s.chatId
    ensures existing.None? ==> u == NewUser(s.telegramId, s.username, s.firstName, s.chatId, now)
    ensures existing.Some? ==>
              u.(username := existing.value.username, firstName := existing.value.firstName,
                 chatId := existing.value.chatId) == existing.value
  {
    match existing
    case None => NewUser(s.telegramId, s.username, s.firstName, s.chatId, now)
    case Some(row) => row.(username := s.username, firstName := s.firstName, chatId := s.chatId)
  }

  /** The stored row for `telegramId`, if any. */
  function Lookup(users: map<int, User>, telegramId: int): Option<User>
  {
    if telegramId in users then Some(users[telegramId]) else None
  }

  /** The users after one bot update from `s`. */
  function AfterUpdate(users: map<int, User>, s: Sender, now: Timestamp): map<int, User>
  {
    users[s.telegramId := Registered(Lookup(users, s.telegramId), s, now)]
  }

  /** The users after a series of updates. */
  function AfterUpdates(users: map<int, User>, updates: seq<Sender>, now: Timestamp): map<int, User>
    decreases |updates|
  {
    if updates == [] then users
    else AfterUpdates(AfterUpdate(users, updates[0], now), updates[1..], now)
  }

  /** However many tasks a user sends to the bot, their free-solution counter never
      moves: an existing user's stays, a new user's is 0.  (The handlers' attempt to
      count a trial assigns to a read-only property and fails.) */
  lemma {:induction false} BotNeverUsesTrials(users: map<int, User>, updates: seq<Sender>, now: Timestamp, id: int)
    ensures id in AfterUpdates(users, updates, now) <==> id in users || exists k :: 0 <= k < |updates| && updates[k].telegramId == id
    ensures id in AfterUpdates(users, updates, now) ==>
              AfterUpdates(users, updates, now)[id].trialsUsed == if id in users then users[id].trialsUsed else 0
    decreases |updates|
  {
    if updates != [] {
      var next := AfterUpdate(users, updates[0], now);
      BotNeverUsesTrials(next, updates[1..], now, id);
      if id in next && id !in users {
        assert updates[0].telegramId == id;
      }
      if exists k :: 0 <= k < |updates[1..]| && updates[1..][k].telegramId == id {
        var k :| 0 <= k < |updates[1..]| && updates[1..][k].telegramId == id;
        assert updates[k + 1].telegramId == id;
      }
      if exists k :: 0 <= k < |updates| && updates[k].telegramId == id {
        var k :| 0 <= k < |updates| && updates[k].telegramId == id;
        if k > 0 {
          assert updates[1..][k - 1].telegramId == id;
        }
      }
    }
  }

  /** So the admission rule never changes its answer because of bot submissions: a user
      who passes it once passes it again after any number of further submissions. */
  lemma BotGateStays(users: map<int, User>, updates: seq<Sender>, subs: seq<Subscription>, now: Timestamp, id: int)
    requires id in users && users[id].telegramId == id
    ensures id in AfterUpdates(users, updates, now)
    ensures TrialsLeft(AfterUpdates(users, updates, now)[id]) == TrialsLeft(users[id])
  {
    BotNeverUsesTrials(users, updates, now, id);
  }

  /** The handler's replies to the sender. */
  datatype Reply =
    | OutOfTrials      // "no free attempts left", with the subscription button
    | TextReceived     // "task received, solving"
    | PhotoReceived    // "photo received, processing"
    | HandlerError     // the handler's `except` reply

  /** The stored name of a photo task's picture. */
  function PhotoName(id: TaskId): string
  {
    "tasks/" + NatText(id) + ".jpg"
  }

  /** Distinct photo tasks never share a picture file. */
  lemma PhotoNamesDistinct(i: TaskId, j: TaskId)
    requires PhotoName(i) == PhotoName(j)
    ensures i == j
  {
    var a, b := NatText(i), NatText(j);
    assert |a| == |b|;
    assert a == PhotoName(i)[6..6 + |a|];
    assert b == PhotoName(j)[6..6 + |b|];
    NatTextInjective(i, j);
  }

  const PHOTO_DESCRIPTION: string := "Фото задача"

  /** `get_or_create` plus, for a known user, the refresh from the update and a save. */
  method Register(db: Database, s: Sender, now: Timestamp) returns (u: User)
    requires db.Valid()
    modifies db`users
    ensures db.Valid()
    ensures u == Registered(Lookup(old(db.users), s.telegramId), s, now)
    ensures db.users == AfterUpdate(old(db.users), s, now)
  {
    var created;
    u, created := db.GetOrCreateUser(NewUser(s.telegramId, s.username, s.firstName, s.chatId, now));
    if !created {
      u := u.(username := s.username, firstName := s.firstName, chatId := s.chatId);
      db.SaveUser(u);
    }
  }

  /** `handle_text`: a refused sender is told that the free attempts are over and
      nothing is created; otherwise a pending text task is created, acknowledged and
      queued for `process_task_text`, and a non-subscriber then also receives the error
      reply of the failed trial update.  `acknowledged` says whether the acknowledgement
      reached Telegram: when it fails, the handler's `except` sends the error reply and
      the task is never queued. */
  method HandleText(db: Database, s: Sender, text: string, acknowledged: bool, now: Timestamp) returns (replies: seq<Reply>)
    requires db.Valid()
    modifies db
    ensures db.Valid()
    ensures db.users == AfterUpdate(old(db.users), s, now) && db.subscriptions == old(db.subscriptions)
    ensures var u := db.users[s.telegramId];
            && (!MayCreateTask(u, db.subscriptions, now) ==>
                  && replies == [OutOfTrials]
                  && db.tasks == old(db.tasks) && db.nextTaskId == old(db.nextTaskId) && db.queue == old(db.queue))
            && (MayCreateTask(u, db.subscriptions, now) ==>
                  var id := old(db.nextTaskId);
                  && id !in old(db.tasks) && db.nextTaskId == id + 1
                  && db.tasks == old(db.tasks)[id := NewTask(id, s.telegramId, text, None, Some(TextSource), now)]
                  && (!acknowledged ==> db.queue == old(db.queue) && replies == [HandlerError])
                  && (acknowledged ==>
                        && db.queue == old(db.queue) + [ProcessTaskTextJob(id)]
                        && replies == [TextReceived] + if HasActiveSubscription(db.subscriptions, s.telegramId, now) then [] else [HandlerError]))
  {
    var user := Register(db, s, now);
    var subscribed := HasActiveSubscription(db.subscriptions, user.telegramId, now);
    var trialsLeft := TrialsLeft(user);
    if !subscribed && trialsLeft <= 0 {
      return [OutOfTrials];
    }
    var task := db.CreateTask(user.telegramId, text, None, Some(TextSource), now);
    if !acknowledged {
      return [HandlerError];
    }
    replies := [TextReceived];
    db.Enqueue(ProcessTaskTextJob(task.id));
    if !subscribed && trialsLeft > 0 {
      replies := replies + [HandlerError];
    }
  }

  /** The photo branch after the task row exists: the picture saved under the task's
      name, the sender told and, when that acknowledgement got through, the image worker
      queued. */
  method StorePhoto(db: Database, task: Task, acknowledged: bool, now: Timestamp) returns (saved: Task)
    requires db.Valid() && task.id in db.tasks && task.owner in db.users && task.status == Pending
    modifies db`tasks, db`queue
    ensures db.Valid()
    ensures saved == task.(image := Some(PhotoName(task.id)))
    ensures db.tasks == old(db.tasks)[task.id := saved]
    ensures db.queue == old(db.queue) + if acknowledged then [ProcessTaskImageJob(task.id)] else []
  {
    saved := task.(image := Some("tasks/" + NatText(task.id) + ".jpg"));
    db.SaveTask(saved, now);
    if acknowledged {
      db.Enqueue(ProcessTaskImageJob(saved.id));
    }
  }

  /** `handle_photo`: as `handle_text`, but the task is a photo task; when the picture
      cannot be fetched from Telegram the task stays pending without a picture, nothing
      is queued and the sender gets the error reply; when the picture is saved but the
      acknowledgement fails, the task keeps its picture, is never queued, and the sender
      gets the error reply. */
  method HandlePhoto(db: Database, s: Sender, downloaded: bool, acknowledged: bool, now: Timestamp) returns (replies: seq<Reply>)
    requires db.Valid()
    modifies db
    ensures db.Valid()
    ensures db.users == AfterUpdate(old(db.users), s, now) && db.subscriptions == old(db.subscriptions)
    ensures var u := db.users[s.telegramId];
            && (!MayCreateTask(u, db.subscriptions, now) ==>
                  && replies == [OutOfTrials]
                  && db.tasks == old(db.tasks) && db.nextTaskId == old(db.nextTaskId) && db.queue == old(db.queue))
            && (MayCreateTask(u, db.subscriptions, now) ==>
                  var id := old(db.nextTaskId);
                  var created := NewTask(id, s.telegramId, PHOTO_DESCRIPTION, None, Some(ImageSource), now);
                  && id !in old(db.tasks) && db.nextTaskId == id + 1
                  && (!downloaded ==>
                        && db.tasks == old(db.tasks)[id := created]
                        && db.queue == old(db.queue) && replies == [HandlerError])
                  && (downloaded ==>
                        && db.tasks == old(db.tasks)[id := created.(image := Some(PhotoName(id)))]
                        && (!acknowledged ==> db.queue == old(db.queue) && replies == [HandlerError])
                        && (acknowledged ==>
                              && db.queue == old(db.queue) + [ProcessTaskImageJob(id)]
                              && replies == [PhotoReceived] + if HasActiveSubscription(db.subscriptions, s.telegramId, now) then [] else [HandlerError])))
  {
    var user := Register(db, s, now);
    var subscribed := HasActiveSubscription(db.subscriptions, user.telegramId, now);
    var trialsLeft := TrialsLeft(user);
    if !subscribed && trialsLeft <= 0 {
      return [OutOfTrials];
    }
    ghost var before := db.tasks;
    var task := db.CreateTask(user.telegramId, PHOTO_DESCRIPTION, None, Some(ImageSource), now);
    if !downloaded {
      return [HandlerError];
    }
    var saved := StorePhoto(db, task, acknowledged, now);
    OverwriteRow(before, task.id, task, saved);
    if !acknowledged {
      return [HandlerError];
    }
    replies := [PhotoReceived];
    if !subscribed && trialsLeft > 0 {
      replies := replies + [HandlerError];
    }
  }

  /** What `show_solve_task_menu` offers. */
  datatype SolveMenu =
    | MiniAppUntil(end: Timestamp)   // a subscriber: the mini-app, with the end date shown
    | MiniAppTrials(left: int)       // free solutions left: the mini-app, with the count shown
    | PurchaseOffer                  // neither: the button to buy a subscription

  /** `show_solve_task_menu`. */
  function SolveTaskMenu(u: User, subs: seq<Subscription>, now: Timestamp): (m: SolveMenu)
    ensures m.PurchaseOffer? <==> !MayCreateTask(u, subs, now)
    ensures m.MiniAppTrials? ==> m.left >= 1
  {
    if HasActiveSubscription(subs, u.telegramId, now) then
      var pk := ActiveSubscription(subs, u.telegramId, now).value;
      MiniAppUntil(subs[pk].end.value)
    else if TrialsLeft(u) > 0 then MiniAppTrials(TrialsLeft(u))
    else PurchaseOffer
  }

  /** The menu agrees with the admission rule: the purchase offer appears exactly when a
      submission would be refused; a subscriber is shown an end date still ahead, and a
      trial user the free solutions still left, at least one. */
  lemma SolveTaskMenuMatchesGate(u: User, subs: seq<Subscription>, now: Timestamp)
    ensures var m := SolveTaskMenu(u, subs, now);
            && (m.PurchaseOffer? <==> !MayCreateTask(u, subs, now))
            && (m.MiniAppUntil? <==> HasActiveSubscription(subs, u.telegramId, now))
            && (m.MiniAppUntil? ==> m.end > now)
            && (m.MiniAppTrials? ==> m.left >= 1 && m.left + u.trialsUsed == TRIAL_LIMIT)
  {
  }

  /** The handlers behind the inline buttons. */
  datatype Screen =
    | SolveTaskScreen
    | SubscriptionScreen
    | ChannelScreen
    | SupportScreen
    | MainMenu
    | WebAppScreen
    | PaymentScreen
    | CancelRenewalScreen

  /** The callback data of the button that opens `screen`. */
  function CallbackData(screen: Screen): string
  {
    match screen
    case SolveTaskScreen => "solve_task"
    case SubscriptionScreen => "subscription"
    case ChannelScreen => "channel"
    case SupportScreen => "support"
    case MainMenu => "back_to_menu"
    case WebAppScreen => "open_webapp"
    case PaymentScreen => "buy_subscription"
    case CancelRenewalScreen => "cancel_auto_renewal"
  }

  /** The `if`/`elif` chain of `button_callback`; unknown data selects nothing. */
  function Dispatch(data: string): (r: Option<Screen>)
    ensures r.Some? ==> CallbackData(r.value) == data
  {
    if data == "solve_task" then Some(SolveTaskScreen)
    else if data == "subscription" then Some(SubscriptionScreen)
    else if data == "channel" then Some(ChannelScreen)
    else if data == "support" then Some(SupportScreen)
    else if data == "back_to_menu" then Some(MainMenu)
    else if data == "open_webapp" then Some(WebAppScreen)
    else if data == "buy_subscription" then Some(PaymentScreen)
    else if data == "cancel_auto_renewal" then Some(CancelRenewalScreen)
    else None
  }

  /** Every button reaches its own handler and no other data reaches any handler: the
      eight callback strings are distinct and the dispatch inverts them. */
  lemma DispatchInvertsCallbackData(screen: Screen, data: string)
    ensures Dispatch(CallbackData(screen)) == Some(screen)
    ensures Dispatch(data).Some? ==> CallbackData(Dispatch(data).value) == data
  {
  }

  /** How `button_callback` ends: the sender's row is read first, and an unknown sender
      makes the handler fail before any dispatch. */
  datatype Routing = UnknownSender | Ignored | Open(screen: Screen)

  function ButtonCallback(users: map<int, User>, from: int, data: string): (r: Routing)
    ensures r.UnknownSender? <==> from !in users
    ensures r.Open? <==> from in users && Dispatch(data).Some?
    ensures r.Open? ==> data == CallbackData(r.screen)
  {
    if from !in users then UnknownSender
    else match Dispatch(data)
      case None => Ignored
      case Some(screen) =>
        DispatchInvertsCallbackData(screen, data);
        Open(screen)
  }

  /** `active_subscription` does not look at the renewal flag, so stopping renewal of
      any row leaves the chosen row where it was. */
  lemma {:induction false} ActiveSubscriptionIgnoresRenewal(subs: seq<Subscription>, pk: nat, owner: int, now: Timestamp)
    requires pk < |subs|
    ensures ActiveSubscription(Payments.WithoutRenewal(subs, pk), owner, now) == ActiveSubscription(subs, owner, now)
    decreases |subs|
  {
    var r := Payments.WithoutRenewal(subs, pk);
    var last := |subs| - 1;
    if pk < last {
      assert r[..last] == Payments.WithoutRenewal(subs[..last], pk);
      ActiveSubscriptionIgnoresRenewal(subs[..last], pk, owner, now);
    } else {
      assert r[..last] == subs[..last];
    }
  }

  /** The subscription table after the bot's cancel button. */
  function BotCancel(subs: seq<Subscription>, owner: int, now: Timestamp): (r: seq<Subscription>)
    ensures |r| == |subs|
    ensures forall i :: 0 <= i < |subs| ==> r[i].(autoRenewal := subs[i].autoRenewal) == subs[i]
  {
    match ActiveSubscription(subs, owner, now)
    case None => subs
    case Some(pk) => Payments.WithoutRenewal(subs, pk)
  }

  /** Pressing the cancel button twice is pressing it once; it never ends the current
      entitlement, and it turns renewal off on the row the menus show. */
  lemma BotCancelIdempotent(subs: seq<Subscription>, owner: int, now: Timestamp)
    ensures BotCancel(BotCancel(subs, owner, now), owner, now) == BotCancel(subs, owner, now)
    ensures HasActiveSubscription(BotCancel(subs, owner, now), owner, now) == HasActiveSubscription(subs, owner, now)
    ensures ActiveSubscription(BotCancel(subs, owner, now), owner, now) == ActiveSubscription(subs, owner, now)
    ensures var a := ActiveSubscription(subs, owner, now);
            a.Some? ==> !BotCancel(subs, owner, now)[a.value].autoRenewal
  {
    var a := ActiveSubscription(subs, owner, now);
    if a.Some? {
      ActiveSubscriptionIgnoresRenewal(subs, a.value, owner, now);
      Payments.CancelRenewalIdempotent(subs, a.value, owner, now);
    }
  }

  datatype CancelReply = RenewalCancelled | NoSubscription

  /** The bot's `cancel_auto_renewal`: with a current subscription, the row
      `active_subscription` picks stops renewing; otherwise nothing is written. */
  method CancelAutoRenewal(db: Database, telegramId: int, now: Timestamp) returns (reply: CancelReply)
    requires db.Valid()
    modifies db`subscriptions
    ensures db.Valid()
    ensures reply == RenewalCancelled <==> HasActiveSubscription(old(db.subscriptions), telegramId, now)
    ensures db.subscriptions == BotCancel(old(db.subscriptions), telegramId, now)
  {
    if HasActiveSubscription(db.subscriptions, telegramId, now) {
      var pk := ActiveSubscription(db.subscriptions, telegramId, now).value;
      var s := db.subscriptions[pk];
      s := s.(autoRenewal := false);
      db.SaveSubscription(pk, s);
      reply := RenewalCancelled;
    } else {
      reply := NoSubscription;
    }
  }
}

# zerotask-webapp: bookkeeping core in Dafny

zerotask-webapp is a homework-solving service. Users send a problem to a Telegram bot, or
submit it through a Telegram mini-app backed by a Django REST API. Celery workers then solve
it: they read the text from a photo, generate a solution, render it as a picture, and notify
both the user and a public channel. Users get three free solutions. After that they need a
30-day subscription, paid through YooKassa, whose webhook creates or refreshes the
subscription row. A small stand-alone FastAPI service keeps an in-memory task list.

The model covers the parts of the system that decide and record things:

- **Entities and derived properties** (`Models`, models.py): `trials_left`,
  `is_active`, `days_left`, `has_active_subscription`, `active_subscription`, and the
  `Task.save` hook that stamps the completion time.
- **The database** (`Store.Database`): one object whose tables the views and workers update
  in place, plus the Celery queue.
- **The REST views** (`Serializers`, `Payments`, `TaskViews`): task creation with the
  free-trial gate, the YooKassa webhook, `create_subscription`, `cancel_auto_renewal`,
  `complete`, `fail`, and the mini-app's task creation.
- **The bot handlers** (`Bot`): text and photo submissions, the "solve a task" menu, button
  dispatch, and the bot's own cancelling of auto-renewal.
- **The admin's logic** (`Admin`).
- **The workers** (`Worker`): state transitions, retry back-off, OCR path and notifications.
- **The text handling of the pipeline** (`Channel`, `Picture`, `Text`): the tag clean-up
  chain, the 500-character cut, Markdown escaping, and the picture's line layout.
- **The FastAPI task store** (`Backend.TaskStore`).

Values that come from outside become parameters:

- the OpenAI replies, as `Result<string>` holding the raw reply text. Every caller strips it, as `generate_solution` and `extract_text_from_image` do;
- whether preprocessing wrote its file;
- the rendered picture bytes;
- whether the Telegram photo download succeeded;
- whether the bot's acknowledgement of a submission reached Telegram;
- the clock, as a single `now` per request.

External effects are returned as values: replies, notices, `Call`s and queued `Job`s.

## Model

| member | source | states |
|---|---|---|
| Models.TrialsLeft | staticfiles/staticfiles/bot/models.py:22-26 | Free solutions left are never negative. They are zero exactly when at least 3 have been used; otherwise they and the used count add up to the limit 3. |
| Models.InactiveRows | staticfiles/staticfiles/bot/models.py:71-74 | A row that is not active, or has no end date, never entitles. An active row is active at every earlier instant too. |
| Models.IsActive | staticfiles/staticfiles/bot/models.py:71-74 | A predicate: status active and an end date after now. Its consequences are stated by `Models.InactiveRows` and `Models.DaysLeft`. |
| Models.DaysLeft | staticfiles/staticfiles/bot/models.py:76-82 | 0 for an inactive row. Otherwise it is the number of whole days d with d days <= time remaining < d+1 days, which is `timedelta.days`. |
| Models.ActiveSubscription | staticfiles/staticfiles/bot/models.py:36-42 | Nothing exactly when the user has no entitling row. Otherwise it returns an entitling row of the user with the latest creation time among them, which is the first row under the `-created_at` ordering. |
| Models.HasActiveSubscription | staticfiles/staticfiles/bot/models.py:28-34 | A predicate: some row of the user's is active now. `Models.ActiveSubscription` returns nothing exactly when it fails. |
| Models.TrialBoundary | staticfiles/staticfiles/bot/models.py:22-26 | For a non-subscriber, 2 used trials still admit and 3 refuse. Admission implies that one more trial stays within the limit. |
| Models.NewSubscriptionWindow | staticfiles/staticfiles/bot/views.py:79-89 | A row created for [start, start+30 days) is active at t exactly when t is before its end. |
| Models.NoticeChat | staticfiles/bot/tasks.py:346 | A notice goes to the stored chat id, or to the telegram id when the chat id is 0. |
| Models.StampCompletion | staticfiles/staticfiles/bot/models.py:118-121 | A completed row without a completion time gets `now`. Every other field, and every other row, is left alone. |
| Models.StampOnce | staticfiles/staticfiles/bot/models.py:118-121 | The save hook is idempotent: the first stamp is kept, and a completed row always has a completion time after a save. |
| Models.NewTaskUnstamped | staticfiles/staticfiles/bot/models.py:98-108 | A new task is pending, has no completion time, and is not changed by the save hook. |
| Store.Database.GetOrCreateUser | staticfiles/staticfiles/bot/serializers.py:56-62 | Returns the stored row, or inserts the candidate exactly when the telegram id is new. Nothing else changes. |
| Store.Database.CreateTask | staticfiles/staticfiles/bot/serializers.py:69 | Inserts the new pending task under an id never used before. The other rows stay. |
| Store.Database.SaveTask | staticfiles/staticfiles/bot/models.py:118-121 | Writes the row as the save hook leaves it. |
| Store.Database.InsertSubscription | staticfiles/staticfiles/bot/views.py:83-89 | Appends the row, whose key is its position. |
| Store.Database.SaveUser | staticfiles/staticfiles/bot/serializers.py:74 | Overwrites the user's row with the given one. Every other user stays. |
| Store.Database.SaveSubscription | staticfiles/staticfiles/bot/views.py:105 | Overwrites the row at the given key. Every other row stays. |
| Store.Database.Enqueue | staticfiles/staticfiles/bot/views.py:165 | Appends the job to the end of the queue. |
| Serializers.SerializerUser | staticfiles/staticfiles/bot/serializers.py:56-62 | A user created by the serializer has the telegram id as chat and no trial used. |
| Serializers.Admit | staticfiles/staticfiles/bot/serializers.py:64-74 | Refused exactly when the admission rule says no. An admitted user keeps their telegram id, and their counter never falls. The counter's exact change is stated by `Serializers.AdmitTrials`. |
| Serializers.AdmitTrials | staticfiles/staticfiles/bot/serializers.py:64-74 | A submission is refused exactly when the admission rule says no. A subscriber's counter stays. A non-subscriber's counter rises by one and never beyond 3, leaving one free solution fewer. |
| Serializers.ThreeFreeSolutions | staticfiles/staticfiles/bot/serializers.py:54-76 | A new user without a subscription gets exactly three submissions: the fourth is refused. |
| Serializers.CreateTask | staticfiles/staticfiles/bot/serializers.py:54-76 | A refusal returns the validation message, keeps the user row the lookup created, and creates no task. Otherwise the task is created under a fresh id and the user's counter is updated. Subscriptions and queue never change. |
| Serializers.TaskUserInfoNamesOwner | staticfiles/staticfiles/bot/serializers.py:40-45 | `user_info` shows the task owner's telegram id, current first name and username. |
| Payments.Matching | staticfiles/staticfiles/bot/views.py:408-410 | Returns exactly the positions of the rows with the webhook's lookup key (user, payment id), in ascending order. |
| Payments.PaidSubscription | staticfiles/staticfiles/bot/views.py:411-419 | A new paid row is active from now for 30 days, renews, is paid via yookassa, and carries the event's amount and currency or the defaults 290.00 RUB. |
| Payments.Refreshed | staticfiles/staticfiles/bot/views.py:422-429 | A refreshed row is active for 30 days from now with the new amount and currency. Its key, renewal flag, method and creation time stay. |
| Payments.Webhook | staticfiles/staticfiles/bot/views.py:385-444 | The reply is 200, 400 or 500. A reply other than 200 writes and sends nothing. A 200 sends one notice and adds at most one row. Which event gets which reply is stated by `Payments.WebhookCodes`. |
| Payments.WebhookCodes | staticfiles/staticfiles/bot/views.py:385-444 | 400 exactly when there is no telegram id. 500 exactly for an unknown user or a key with several rows. Every other case is 200, and only a 200 writes or notifies. |
| Payments.WebhookNotSucceeded | staticfiles/staticfiles/bot/views.py:436-440 | A payment that did not succeed writes nothing. The payer is told, in the stored chat, which payment failed. |
| Payments.WebhookSucceeded | staticfiles/staticfiles/bot/views.py:406-434 | After a succeeded payment, the key has exactly one row, and it is the only row added or changed. The payer is notified and is entitled throughout the next 30 days. |
| Payments.WebhookRedelivery | staticfiles/staticfiles/bot/views.py:408-429 | A redelivered succeeded event adds no row: it refreshes the row the first delivery left. |
| Payments.WebhookIdempotent | staticfiles/staticfiles/bot/views.py:408-429 | Two deliveries of one succeeded event at the same instant leave the table one delivery leaves. |
| Payments.HandleWebhook | staticfiles/staticfiles/bot/views.py:385-444 | The handler's status, table and notices are those the webhook specification gives. |
| Payments.CreateSubscriptionEffect | bot/views.py:48-81 | The reply is 201, 400 or 404. Only a 201 writes, and it appends exactly one row behind the unchanged table. The new row's effect is stated by `Payments.CreateSubscriptionOutcomes`. |
| Payments.CreateSubscriptionOutcomes | bot/views.py:48-81 | 400 exactly without a payment id or telegram id. 404 exactly for an unknown user. Neither of these writes. A 201 appends one row to the payment's key, and that row entitles its owner for 30 days. |
| Payments.CreateSubscriptionTwice | staticfiles/staticfiles/bot/views.py:83-89 | Repeating `create_subscription` duplicates the key's rows, after which the webhook answers 500 for that payment. |
| Payments.CreateSubscription | staticfiles/staticfiles/bot/views.py:65-98 | The view's status and table are those the specification gives. The new row's key is returned exactly on a 201. |
| Payments.WithoutRenewal | staticfiles/staticfiles/bot/views.py:101-108 | Only the chosen row changes, and only its renewal flag, which becomes off. |
| Payments.CancelRenewalIdempotent | bot/views.py:84-91 | Cancelling twice is cancelling once, and cancelling never changes whether the owner is entitled now. |
| Payments.CancelAutoRenewal | staticfiles/staticfiles/bot/views.py:101-108 | 404 exactly when there is no such row, and then nothing is written. Otherwise 200, with that row no longer renewing. |
| TaskViews.CompletedByHand | bot/views.py:116-120 | Completed with the given solution, and the uploaded picture when there is one. The first completion time is kept. No other field changes. |
| TaskViews.CompleteKeepsTime | bot/views.py:116-120 | Completing again, or completing a row the worker already solved, keeps the earlier completion time. The latest solution wins. |
| TaskViews.Complete | bot/views.py:104-123 | 404 exactly for an unknown task. 400 exactly for an absent or empty solution. Neither writes. Otherwise 200 with the completed row saved. |
| TaskViews.FailedByHand | bot/views.py:129-133 | Failed, with "Ошибка: " and the message (default "Ошибка при решении") in the solution field. No other field changes. |
| TaskViews.FailByHandShape | bot/views.py:126-136 | A manual failure keeps the error-message field and the completion time. The solution is the fixed prefix followed by the message. The save hook leaves the row alone. |
| TaskViews.Fail | bot/views.py:126-136 | 404 exactly for an unknown task, with nothing written. Otherwise 200 with the failed row saved. |
| TaskViews.WebAppUser | staticfiles/staticfiles/bot/views.py:135-144 | The mini-app's new user takes the request's fields. Missing fields default to `user_<id>`, "Пользователь" and the telegram id as chat. The placeholder id is used when the request has none. |
| TaskViews.WebAppTask | staticfiles/staticfiles/bot/views.py:127-216 | The task gets the given id and the request's submitter. It stays pending exactly when a photo was sent. The rest is stated by `TaskViews.WebAppTaskOutcome`. |
| TaskViews.FallbackSolution | staticfiles/staticfiles/bot/views.py:197-202 | The stand-in solution quotes the task text verbatim inside a fixed four-step list. |
| TaskViews.WebAppTaskOutcome | staticfiles/staticfiles/bot/views.py:146-205 | A photo submission stays pending with its photo and source `image`. A text submission is completed now, with the generated reply stripped of surrounding whitespace, or else the non-empty stand-in. |
| TaskViews.AttachPhoto | staticfiles/staticfiles/bot/views.py:160-165 | The photo is saved on the row and one image-worker job is queued. |
| TaskViews.SolveText | staticfiles/staticfiles/bot/views.py:182-205 | The generated reply, stripped of surrounding whitespace, or else the stand-in is saved as the solution, with the row completed now. |
| TaskViews.StoreWebAppTask | staticfiles/staticfiles/bot/views.py:146-205 | For a known submitter, the new task is stored under a fresh id as `TaskViews.WebAppTask` gives it, and a job is queued only for a photo. |
| TaskViews.CreateFromWebApp | staticfiles/staticfiles/bot/views.py:127-216 | The submitter is found or created, with no admission check and no trial used. A fresh task holds the outcome above. A job is queued only for a photo. The reply goes to the submitter's notice chat. |
| Bot.Registered | staticfiles/telegram_bot.py:348-362 | A known user's username, first name and chat are refreshed from the update and nothing else changes. An unknown user is created with defaults. |
| Bot.BotNeverUsesTrials | staticfiles/telegram_bot.py:397-400 | Across any series of bot updates, exactly the senders are registered, and no free-solution counter ever moves. The handlers assign to the read-only `trials_left` property, which fails. |
| Bot.BotGateStays | staticfiles/telegram_bot.py:364-375 | Bot submissions never change a user's free solutions left, so the gate's answer never changes because of them. |
| Bot.PhotoNamesDistinct | staticfiles/telegram_bot.py:462 | Distinct photo tasks never share a picture file name. |
| Bot.Register | staticfiles/telegram_bot.py:348-362 | The users table after the handler's `get_or_create` and refresh is the one-update specification. |
| Bot.HandleText | staticfiles/telegram_bot.py:341-404 | A refused sender gets the out-of-trials reply and nothing is created or queued. Otherwise a pending text task is created. If the acknowledgement fails, the task is never queued and only the error reply is sent. If it gets through, the task is queued for `process_task_text`, and a non-subscriber then also gets the error reply from the failing trial update. |
| Bot.StorePhoto | staticfiles/telegram_bot.py:461-477 | The picture name `tasks/<id>.jpg` is saved on the row. One image-worker job is queued exactly when the acknowledgement got through. |
| Bot.HandlePhoto | staticfiles/telegram_bot.py:406-486 | Same gate as for text. When the download fails, the task stays pending without a picture, nothing is queued, and the error reply is sent. Otherwise the picture is saved on the task. If the acknowledgement then fails, the task is never queued and only the error reply is sent. If it gets through, the task is queued, with the extra error reply for a non-subscriber. |
| Bot.SolveTaskMenuMatchesGate | staticfiles/telegram_bot.py:154-184 | The purchase offer appears exactly when a submission would be refused. A subscriber sees an end date still ahead. A trial user sees at least one free solution left, and that count plus the used count is the limit. |
| Bot.SolveTaskMenu | staticfiles/telegram_bot.py:154-187 | The purchase offer is shown exactly when a submission would be refused. A trial count shown is at least one. |
| Bot.DispatchInvertsCallbackData | staticfiles/telegram_bot.py:133-150 | Each of the eight buttons reaches its own handler, and no other data reaches any handler. |
| Bot.Dispatch | staticfiles/telegram_bot.py:133-150 | Data selects a handler only when it is that handler's callback string. |
| Bot.ButtonCallback | staticfiles/telegram_bot.py:126-150 | An unknown sender fails before dispatch. A known sender opens a screen exactly when the data is one of the eight callbacks. |
| Bot.ActiveSubscriptionIgnoresRenewal | staticfiles/staticfiles/bot/models.py:36-42 | Turning renewal off on any row never changes which row counts as the active subscription. |
| Bot.BotCancelIdempotent | staticfiles/telegram_bot.py:264-277 | The cancel button is idempotent and never ends the current entitlement. It turns renewal off on the row the menus show. |
| Bot.BotCancel | staticfiles/telegram_bot.py:264-284 | The table keeps its rows, and no field but the renewal flag changes. |
| Bot.CancelAutoRenewal | staticfiles/telegram_bot.py:264-284 | "Cancelled" is replied exactly for a current subscriber. The table afterwards is the cancel specification. |
| Admin.DescriptionShortBounds | staticfiles/bot/admin.py:116-117 | A description of up to 100 characters is shown whole. A longer one is its first 100 characters plus "...". The column is never longer than 103 characters. |
| Admin.DescriptionShort | staticfiles/bot/admin.py:116-117 | The column is at most 103 characters long, and a description of up to 100 characters is shown whole. |
| Admin.AdminSaved | staticfiles/bot/admin.py:84-90 | An edit is saved as the form gives it. An added row starts now and, with no end given, ends 30 days later. No other field changes. |
| Admin.AdminGrantEntitles | staticfiles/bot/admin.py:86-89 | An active subscription added with an empty end entitles throughout the 30 days from the save, with 30 days left at the save. The end column is required (staticfiles/staticfiles/bot/models.py:54), so the admin form never submits an empty end, and this branch is reached only when form validation is bypassed. |
| Admin.AdminEditIdempotent | staticfiles/bot/admin.py:84-90 | Saving an edit again changes nothing. |
| Admin.SaveModel | staticfiles/bot/admin.py:84-90 | An added row is appended as specified. An edited row is overwritten in place. |
| Admin.SubscriptionActionsBranches | staticfiles/bot/admin.py:31-53 | The active block appears exactly for a subscriber and shows the row the rest of the system treats as current. Otherwise the block shows the non-negative count of free solutions left. |
| Admin.SubscriptionActions | staticfiles/bot/admin.py:31-53 | The active block appears exactly for a subscriber. The other block shows a non-negative count. |
| Backend.NewRecord | staticfiles/backend.py:43-56 | A stored record is pending and echoes the request. The file name and upload path are present exactly when a file came with the request. |
| Backend.BuildRecord | staticfiles/backend.py:43-56 | The record dictionary built step by step is the specified record. |
| Backend.UploadPathsDistinct | staticfiles/backend.py:53-56 | Two uploads share a path only for the same task and the same file name. |
| Backend.Values | staticfiles/backend.py:27-30 | The listing has one entry per key, in insertion order, each the record stored under its key. |
| Backend.TaskStore.constructor | staticfiles/backend.py:21 | The store starts empty. |
| Backend.TaskStore.Listing | staticfiles/backend.py:27-30 | `get_tasks` returns as many records as there are keys, every stored record, and nothing else. |
| Backend.TaskStore.Get | staticfiles/backend.py:78-86 | Found exactly when the id is a key, and then it is that key's record. Otherwise 404. |
| Backend.TaskStore.TasksCount | staticfiles/backend.py:88-95 | The health count is the length of the listing. |
| Backend.TaskStore.Create | staticfiles/backend.py:32-70 | 201 with the telegram id echoed. The record is stored under an id that was not a key, and the listing grows by exactly that record. |
| Backend.CreateThenGet | staticfiles/backend.py:32-86 | A created record is fetched back as created. Every other record stays, and the health count rises by one. |
| Text.ReplaceAll | staticfiles/bot/tasks.py:385 | `str.replace` never lengthens the text when the replacement is no longer than the pattern. |
| Text.Take | staticfiles/bot/tasks.py:400 | `s[:n]` is the prefix of length min(n, len(s)). |
| Text.Strip | staticfiles/bot/tasks.py:269 | The result is a contiguous piece of the text with only whitespace before and after it. It is empty exactly for blank text, and otherwise starts and ends with a non-space character. |
| Text.JoinSplit | staticfiles/bot/tasks.py:297 | Splitting at a separator loses nothing: joining the pieces gives the text back. |
| Text.ParseNatText | staticfiles/telegram_bot.py:462 | The decimal rendering of an id reads back as the same id. |
| Channel.StripTags | staticfiles/bot/tasks.py:284 | The tag clean-up chain never lengthens the text. |
| Channel.StripTagsWellFormed | staticfiles/bot/tasks.py:385 | On text in which every `<` opens one of the six tags, each `</li>` becomes a line break, the other tags vanish, and all other text is kept in order. Text with a bare `<`, such as `x < 5`, is outside this lemma. |
| Channel.StripTagsPlain | staticfiles/bot/tasks.py:385 | Text without `<` passes through the chain unchanged. |
| Channel.ChannelSolution | staticfiles/bot/tasks.py:385-389 | A cleaned solution of up to 500 characters is kept. A longer one becomes its first 500 characters plus "...", so never more than 503. |
| Channel.EscapeMarkdown | staticfiles/bot/tasks.py:393-398 | The loop of 18 `replace` calls puts exactly one backslash before each special character, as a single pass would. |
| Channel.UnescapeEscaped | staticfiles/bot/tasks.py:393-398 | Escaping changes nothing but the inserted backslashes: undoing it gives the text back. |
| Channel.DisplayName | staticfiles/bot/tasks.py:402 | The author shown is the username when there is a non-empty one, and "Аноним" otherwise. It is never empty. |
| Channel.ChannelPostContent | staticfiles/bot/tasks.py:400-406 | Unescaped, the post shows the first 100 characters of the task, the cut cleaned solution and the author. The "..." mark appears exactly when the task text was cut. |
| Channel.ChannelPostFor | staticfiles/bot/tasks.py:396-406 | The post links the task's own id. The "..." mark is set exactly when the description is longer than 100 characters. |
| Channel.BuildChannelPost | staticfiles/bot/tasks.py:382-402 | The message parts built step by step are the specified post. |
| Picture.NonBlankTexts | staticfiles/bot/tasks.py:300-302 | Every drawn line has text and starts and ends with a non-space character. |
| Picture.NonBlankSnoc | staticfiles/bot/tasks.py:300-302 | Only blank lines are dropped. Every other line contributes exactly its stripped text, in order. |
| Picture.StackPositions | staticfiles/bot/tasks.py:298-303 | The i-th drawn text is at height 20 + 25·i. |
| Picture.LayoutSnoc | staticfiles/bot/tasks.py:298-303 | One more input line adds one drawn line below the others, or none when it is blank. |
| Picture.DrawLines | staticfiles/bot/tasks.py:298-303 | The drawing loop draws exactly the layout, and ends with `y` one row below the last drawn line. |
| Picture.LayoutSolution | staticfiles/bot/tasks.py:284-303 | The picture's text is the cleaned solution, split at line breaks and laid out. |
| Worker.RetryCountdown | staticfiles/bot/tasks.py:74 | The countdown is at least 60 seconds, and each retry waits twice as long as the previous one. |
| Worker.AfterFailure | staticfiles/bot/tasks.py:67-74 | A failure schedules a retry with that countdown while fewer than 3 retries have happened. Otherwise it gives up. The error is kept either way. |
| Worker.BackoffSchedule | staticfiles/bot/tasks.py:16 | A task that always fails runs 4 times, waiting 60, 120 and 240 seconds: 420 seconds in all. |
| Worker.SolvedRow | staticfiles/bot/tasks.py:91-100 | Completed now with the solution, and with the picture when a non-empty one was rendered. No other field changes. |
| Worker.FailedRow | staticfiles/bot/tasks.py:112-116 | Failed, with the exception's text as error message. No other field changes. |
| Worker.TextRunSettles | staticfiles/bot/tasks.py:76-119 | A run never leaves a task pending or processing. It completes exactly when generation succeeded. The submission fields stay, and a failure keeps the old solution. |
| Worker.TextRun | staticfiles/bot/tasks.py:76-119 | A text run leaves the task completed or failed, under its own id and owner. |
| Worker.ImageRunDescription | staticfiles/bot/tasks.py:29-40 | With a photo, the description becomes the stripped OCR text. When OCR fails the task fails, its description stays, and nothing is generated. |
| Worker.ImageRun | staticfiles/bot/tasks.py:16-74 | An image run leaves the task completed or failed, under its own id and owner. A photo whose OCR fails fails the task. |
| Worker.ImageRunWithoutImage | staticfiles/bot/tasks.py:25-27 | A photo-less task given to the image worker ends exactly as under the text worker. |
| Worker.RetryKeepsError | staticfiles/bot/tasks.py:91-100 | A success after a failed run gives the row of a first-time success, except that the old error message is kept: no run clears it. |
| Worker.SendNotices | staticfiles/bot/tasks.py:103-107 | The owner is told in their notice chat, and the channel gets the post built from the saved row. |
| Worker.Notices | staticfiles/bot/tasks.py:103-107 | Two notices: first the owner's, then the channel post for the saved task's id. |
| Worker.PreprocessedPath | staticfiles/bot/tasks.py:185-192 | OCR reads the original path when preprocessing failed, and otherwise a path at least as long. |
| Worker.ProcessedName | staticfiles/bot/tasks.py:185 | For a single-dot name, the processed copy has `_processed` before the extension. |
| Worker.RunOutcome | staticfiles/bot/tasks.py:112-119 | A run is solved exactly when no error was raised. Otherwise the retry policy decides. |
| Worker.MarkProcessing | staticfiles/bot/tasks.py:80-82 | Only the status changes, to processing. |
| Worker.SaveFailure | staticfiles/bot/tasks.py:112-116 | The failed row is saved. |
| Worker.SaveSolution | staticfiles/bot/tasks.py:91-100 | The solved row is saved. |
| Worker.Attempt | staticfiles/bot/tasks.py:78-119 | The row ends as the text-run specification says. The error is reported exactly when generation failed. The calls are one generation and, on success, the two notices. |
| Worker.ProcessText | staticfiles/bot/tasks.py:76-164 | One run of `process_text_task` or of `process_task_text`, which has the same body. A missing task crashes the handler with no write and no call. Otherwise the row, the calls and the retry outcome are those the text-run specification gives. |
| Worker.TextRunIgnoresStatus | staticfiles/bot/tasks.py:80-82 | A run's result does not depend on the status the row was read with. |
| Worker.ImageRunIgnoresStatus | staticfiles/bot/tasks.py:20-22 | Likewise for the image worker's row. |
| Worker.DelegateToText | staticfiles/bot/tasks.py:25-27 | Handing a photo-less task to the text worker leaves the text run's row. The image worker's handler saves the same failure again. |
| Worker.DescribeAndSolve | staticfiles/bot/tasks.py:36-62 | The recognised text is saved as the description, then the text run's row and calls follow. |
| Worker.SolveFromPhoto | staticfiles/bot/tasks.py:29-62 | OCR reads the preprocessed path. An OCR failure fails the row. Otherwise the run proceeds as described. |
| Worker.ProcessTaskImage | staticfiles/bot/tasks.py:16-74 | A missing task crashes the handler. Otherwise the row is the image-run specification, the calls are its calls, and the retry outcome follows from the OCR or generation error. |

## Left out

- Network I/O:
  - Telegram, OpenAI, YooKassa and HTTP framework calls are not modelled.
  - The replies OpenAI gives, the photo download, and whether preprocessing wrote its file are parameters.
  - Messages sent are recorded as values. In the views and the workers, the senders catch their own errors, so a failed send changes no reply and no row.
  - In the bot, a failed acknowledgement of a submission is a parameter. The handler's `except` then sends the error reply, and the task is never queued. Every other bot send comes after the handler's last write, so its failure changes no row.
- Pixel work is not modelled: OpenCV preprocessing, PIL drawing, fonts, image size and PNG bytes. The rendered picture is an opaque parameter.
- Wording, keyboards and menus:
  - The text of messages and keyboards is not modelled.
  - The menus that only display text are not modelled: start, main, subscription, channel, payment, support and help.
  - The `/start` and `/help` commands, the stats views, the user-lookup views, the test views and the FastAPI root greeting, URL routing and the test scripts are not modelled.
- The root `telegram_bot.py` is an older copy of the bot and is not part of this model.
- Concurrency and atomicity are not modelled: threads, asyncio, simultaneous requests and database transactions. Each request is one atomic step.
- Time and representation:
  - `timezone.now()` is one integer `now` per request. The source's two calls within one request may differ by microseconds.
  - Dates are integer seconds.
  - Decimal amounts are integer kopecks.
  - uuid4 ids are drawn from a counter. Like uuid4, this guarantees the new id is not yet a key.
- JSON parse errors and other unexpected exceptions (500 replies, including backend `create_task`'s `except`) are not modelled, except where named above.
- Request fields are taken as strings or absent. A JSON `null` or a non-string value is not modelled: for a `null` `error_message`, `fail` stores "Ошибка: None", which `TaskViews.FailedByHand` cannot produce.
- Webhook `amount` and `telegram_id` are taken as numbers. A falsy value (0, empty, absent) behaves as absent, as `or` and `not` do in the source.
- The worker's intermediate `processing` save is not visible in the result. Only the row a run leaves is stated.
- Django's storage renames on upload clashes and the solution picture's file name are not modelled. A rendered picture is stored as its bytes.
- Celery scheduling itself is not modelled. A retry is its countdown and the retry number.
- Models.ActiveSubscription: among entitling rows created at the same instant, it picks the last inserted. The database's order for such ties is unspecified.
- Text.ReplaceAll: its contract states only length bounds. Its exact effect is stated by the lemmas about it (`ReplaceAllAbsent`, `ReplaceAllPlainPrefix`, `ReplaceAllMatchHead`) and by `Channel.StripTagsWellFormed`.
- Worker.PreprocessedPath: for a path with several dots, the contract states only the length. The exact name is stated for single-dot names by `Worker.ProcessedName`.
- Channel.StripTagsWellFormed: text with a `<` that opens none of the six tags (a bare comparison such as `x < 5`) is outside the lemma. `Channel.StripTags` still models the chain of replacements on every text, but there a removed tag can join its neighbours into a new one (`<<ol>li>` loses both), so no token-by-token description holds.

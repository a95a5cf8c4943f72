/** The REST endpoints that write tasks directly: `complete` and `fail` of the task
    view set (bot/views.py), and the mini-app's `TaskCreateView.post`, which stores a
    photo task for the image worker or solves a text task on the spot. */
module TaskViews {
  import opened Wrappers
  import opened Text
  import opened Models
  import opened Store

  /** The row after `complete`: the solution stored, the uploaded picture stored when
      there is one, completed; the save hook stamps the completion time unless the
      row already had one. */
  function CompletedByHand(t: Task, solution: string, upload: Option<Blob>, now: Timestamp): (r: Task)
    ensures r.status == Completed && r.solution == solution
    ensures r.completedAt == Some(t.completedAt.GetOr(now))
    ensures r.solutionImage == if upload.Some? then upload else t.solutionImage
    ensures r.(status := t.status, solution := t.solution, solutionImage := t.solutionImage, completedAt := t.completedAt) == t
  {
    var row := t.(solution := solution);
    var row := if upload.Some? then row.(solutionImage := upload) else row;
    StampCompletion(row.(status := Completed), now)
  }

  /** Completing again keeps the first completion time, and completing a row the
      worker already solved keeps the worker's time. */
  lemma CompleteKeepsTime(t: Task, s1: string, s2: string, u1: Option<Blob>, u2: Option<Blob>, now1: Timestamp, now2: Timestamp)
    ensures var once := CompletedByHand(t, s1, u1, now1);
            && CompletedByHand(once, s2, u2, now2).completedAt == once.completedAt
            && (t.completedAt.Some? ==> once.completedAt == t.completedAt)
            && CompletedByHand(once, s2, u2, now2).solution == s2
  {
  }

  /** `TaskViewSet.complete`: 404 for an unknown task, 400 without a solution (absent
      or empty) and nothing written, otherwise the completed row saved, 200. */
  method Complete(db: Database, id: TaskId, solution: Option<string>, upload: Option<Blob>, now: Timestamp)
    returns (code: int)
    requires db.Valid()
    modifies db`tasks
    ensures db.Valid()
    ensures code == 404 <==> id !in old(db.tasks)
    ensures code == 400 <==> id in old(db.tasks) && (solution.None? || solution.value == "")
    ensures code == 404 || code == 400 || code == 200
    ensures code != 200 ==> db.tasks == old(db.tasks)
    ensures code == 200 ==> db.tasks == old(db.tasks)[id := CompletedByHand(old(db.tasks)[id], solution.value, upload, now)]
  {
    if id !in db.tasks {
      return 404;
    }
    var task := db.tasks[id];
    if solution.None? || solution.value == "" {
      return 400;
    }
    task := task.(solution := solution.value);
    if upload.Some? {
      task := task.(solutionImage := upload);
    }
    task := task.(status := Completed);
    db.SaveTask(task, now);
    code := 200;
  }

  /** The message `fail` stores when the request gives none. */
  const DEFAULT_FAILURE: string := "Ошибка при решении"
  const FAILURE_PREFIX: string := "Ошибка: "

  /** The row after `fail`: failed, with the error written into the solution field; the
      error-message field and the completion time are left as they were. */
  function FailedByHand(t: Task, message: Option<string>): (r: Task)
    ensures r.status == Failed
    ensures r.solution == FAILURE_PREFIX + message.GetOr(DEFAULT_FAILURE)
    ensures r.(status := t.status, solution := t.solution) == t
  {
    t.(status := Failed, solution := FAILURE_PREFIX + message.GetOr(DEFAULT_FAILURE))
  }

  /** Unlike a worker failure, a failure reported through the endpoint keeps the
      row's error message and shows the error in the solution, after a fixed prefix;
      a failed row is never stamped by the save hook. */
  lemma FailByHandShape(t: Task, message: Option<string>, now: Timestamp)
    ensures var r := FailedByHand(t, message);
            && r.errorMessage == t.errorMessage && r.completedAt == t.completedAt
            && r.solution[..|FAILURE_PREFIX|] == FAILURE_PREFIX
            && r.solution[|FAILURE_PREFIX|..] == message.GetOr(DEFAULT_FAILURE)
            && StampCompletion(r, now) == r
  {
    var r := FailedByHand(t, message);
    assert r.solution == FAILURE_PREFIX + message.GetOr(DEFAULT_FAILURE);
  }

  /** `TaskViewSet.fail`: 404 for an unknown task, otherwise the failed row saved, 200. */
  method Fail(db: Database, id: TaskId, message: Option<string>, now: Timestamp) returns (code: int)
    requires db.Valid()
    modifies db`tasks
    ensures db.Valid()
    ensures code == 404 <==> id !in old(db.tasks)
    ensures code == 404 ==> db.tasks == old(db.tasks)
    ensures code != 404 ==> code == 200 && db.tasks == old(db.tasks)[id := FailedByHand(old(db.tasks)[id], message)]
  {
    if id !in db.tasks {
      return 404;
    }
    var task := db.tasks[id];
    var error := message.GetOr(DEFAULT_FAILURE);
    task := task.(status := Failed, solution := FAILURE_PREFIX + error);
    db.SaveTask(task, now);
    code := 200;
  }

  /** The fields of a mini-app submission; `None` is a field the request leaves out.
      `image` is the stored name of the uploaded photo. */
  datatype WebAppRequest = WebAppRequest(
    telegramId: Option<int>,
    username: Option<string>,
    firstName: Option<string>,
    chatId: Option<int>,
    description: Option<string>,
    image: Option<string>)

  /** The stand-in telegram id used when the request has none. */
  const PLACEHOLDER_TELEGRAM_ID: int := 123456789

  function Submitter(req: WebAppRequest): int
  {
    req.telegramId.GetOr(PLACEHOLDER_TELEGRAM_ID)
  }

  /** The user row the mini-app creates for an unknown telegram id: the request's
      fields, or `user_<id>`, `Пользователь` and the telegram id as chat. */
  function WebAppUser(req: WebAppRequest, now: Timestamp): (u: User)
    ensures u.telegramId == Submitter(req) && u.trialsUsed == 0
    ensures u.username == Some(req.username.GetOr("user_" + IntText(Submitter(req))))
    ensures u.firstName == req.firstName.GetOr(DEFAULT_FIRST_NAME)
    ensures u.chatId == req.chatId.GetOr(Submitter(req))
  {
    var id := Submitter(req);
    NewUser(id, Some(req.username.GetOr("user_" + IntText(id))), req.firstName.GetOr(DEFAULT_FIRST_NAME),
            req.chatId.GetOr(id), now)
  }

  /** The first and the last part of the solution stored when generation fails: a
      four-step list whose first step quotes the task. */
  const FALLBACK_HEAD: string := "<ol>\n<li><strong>Анализ задачи:</strong> "
  const FALLBACK_TAIL: string :=
    "</li>\n<li><strong>Применение метода:</strong> Используем соответствующий метод решения</li>\n"
    + "<li><strong>Выполнение вычислений:</strong> Получаем промежуточный результат</li>\n"
    + "<li><strong>Ответ:</strong> Итоговое решение задачи</li>\n</ol>"

  /** The stand-in solution for a text task whose generation failed. */
  function FallbackSolution(description: string): (r: string)
    ensures |r| == |FALLBACK_HEAD| + |description| + |FALLBACK_TAIL|
    ensures r[|FALLBACK_HEAD|..|FALLBACK_HEAD| + |description|] == description
  {
    var r := FALLBACK_HEAD + description + FALLBACK_TAIL;
    assert r[|FALLBACK_HEAD|..|FALLBACK_HEAD| + |description|] == description;
    r
  }

  /** The row the mini-app leaves: a photo task waits, pending, for the image worker;
      a text task is completed now with the generated solution, stripped as
      `generate_solution` returns it, or with the stand-in. */
  function WebAppTask(id: TaskId, req: WebAppRequest, generated: Result<string>, now: Timestamp): (t: Task)
    ensures t.id == id && t.owner == Submitter(req)
    ensures t.status == Pending <==> req.image.Some?
  {
    var description := req.description.GetOr("");
    if req.image.Some? then NewTask(id, Submitter(req), description, req.image, Some(ImageSource), now)
    else
      var solution := if generated.Ok? then Strip(generated.value) else FallbackSolution(description);
      NewTask(id, Submitter(req), description, None, Some(TextSource), now)
        .(solution := solution, status := Completed, completedAt := Some(now))
  }

  /** A photo submission is pending with its photo and its source `image`; a text
      submission is always completed at once and never carries an empty solution. */
  lemma WebAppTaskOutcome(id: TaskId, req: WebAppRequest, generated: Result<string>, now: Timestamp)
    ensures var t := WebAppTask(id, req, generated, now);
            && t.id == id && t.owner == Submitter(req) && t.description == req.description.GetOr("")
            && (t.source == ImageSource <==> req.image.Some?)
            && (req.image.Some? ==> t.status == Pending && t.image == req.image && t.completedAt.None? && t.solution == "")
            && (req.image.None? ==> t.status == Completed && t.completedAt == Some(now) && t.image.None?)
            && (req.image.None? && generated.Ok? ==> t.solution == Strip(generated.value))
            && (req.image.None? && generated.Err? ==> t.solution != "" && t.solution == FallbackSolution(t.description))
            && StampCompletion(t, now) == t
  {
    var t := WebAppTask(id, req, generated, now);
    if req.image.None? && generated.Err? {
      assert |t.solution| >= |FALLBACK_HEAD|;
    }
  }

  /** The photo branch: the stored photo saved on the new row, the image worker queued. */
  method AttachPhoto(db: Database, task: Task, image: string, now: Timestamp) returns (saved: Task)
    requires db.Valid() && task.id in db.tasks && task.owner in db.users && task.status == Pending
    modifies db`tasks, db`queue
    ensures db.Valid()
    ensures saved == task.(image := Some(image))
    ensures db.tasks == old(db.tasks)[task.id := saved]
    ensures db.queue == old(db.queue) + [ProcessTaskImageJob(task.id)]
  {
    saved := task.(image := Some(image));
    db.SaveTask(saved, now);
    db.Enqueue(ProcessTaskImageJob(saved.id));
  }

  /** The text branch: the generated solution, or the stand-in when generation failed,
      saved with the row completed now. */
  method SolveText(db: Database, task: Task, generated: Result<string>, now: Timestamp) returns (saved: Task)
    requires db.Valid() && task.id in db.tasks && task.owner in db.users
    modifies db`tasks
    ensures db.Valid()
    ensures saved == task.(solution := if generated.Ok? then Strip(generated.value) else FallbackSolution(task.description),
                           status := Completed, completedAt := Some(now))
    ensures db.tasks == old(db.tasks)[task.id := saved]
  {
    saved := task;
    if generated.Ok? {
      saved := saved.(solution := Strip(generated.value));
    } else {
      saved := saved.(solution := FallbackSolution(task.description));
    }
    saved := saved.(status := Completed, completedAt := Some(now));
    db.SaveTask(saved, now);
  }

  /** The text branch leaves the row `WebAppTask` describes. */
  lemma SolvedTextIsWebAppTask(task: Task, req: WebAppRequest, generated: Result<string>, now: Timestamp)
    requires req.image.None?
    requires task == NewTask(task.id, Submitter(req), req.description.GetOr(""), None, Some(TextSource), now)
    ensures task.(solution := if generated.Ok? then Strip(generated.value) else FallbackSolution(task.description),
                  status := Completed, completedAt := Some(now))
            == WebAppTask(task.id, req, generated, now)
  {
  }

  /** The task half of `TaskCreateView.post`, once the submitter's row exists: the new
      task, then the photo branch or the text branch. */
  method StoreWebAppTask(db: Database, req: WebAppRequest, generated: Result<string>, now: Timestamp)
    returns (taskId: TaskId)
    requires db.Valid() && Submitter(req) in db.users
    modifies db`tasks, db`nextTaskId, db`queue
    ensures db.Valid()
    ensures taskId == old(db.nextTaskId) && taskId !in old(db.tasks) && db.nextTaskId == taskId + 1
    ensures db.tasks == old(db.tasks)[taskId := WebAppTask(taskId, req, generated, now)]
    ensures db.queue == old(db.queue) + if req.image.Some? then [ProcessTaskImageJob(taskId)] else []
  {
    var source := if req.image.Some? then ImageSource else TextSource;
    var description := req.description.GetOr("");
    ghost var before := db.tasks;
    var task := db.CreateTask(Submitter(req), description, None, Some(source), now);
    var saved;
    if req.image.Some? {
      saved := AttachPhoto(db, task, req.image.value, now);
      assert saved == WebAppTask(task.id, req, generated, now);
    } else {
      saved := SolveText(db, task, generated, now);
      SolvedTextIsWebAppTask(task, req, generated, now);
    }
    OverwriteRow(before, task.id, task, saved);
    taskId := task.id;
  }

  /** `TaskCreateView.post`: finds or creates the submitter (no admission check and no
      trial is used), creates the task, and either stores the photo and queues the
      image worker, or solves the text at once; the returned chat is the one the
      "task received" message goes to. */
  method CreateFromWebApp(db: Database, req: WebAppRequest, generated: Result<string>, now: Timestamp)
    returns (taskId: TaskId, chat: int)
    requires db.Valid()
    modifies db
    ensures db.Valid()
    ensures var id := Submitter(req);
            db.users == old(db.users)[id := if id in old(db.users) then old(db.users)[id] else WebAppUser(req, now)]
    ensures db.subscriptions == old(db.subscriptions)
    ensures taskId == old(db.nextTaskId) && taskId !in old(db.tasks) && db.nextTaskId == taskId + 1
    ensures db.tasks == old(db.tasks)[taskId := WebAppTask(taskId, req, generated, now)]
    ensures db.queue == old(db.queue) + if req.image.Some? then [ProcessTaskImageJob(taskId)] else []
    ensures chat == NoticeChat(db.users[Submitter(req)])
  {
    var user, created := db.GetOrCreateUser(WebAppUser(req, now));
    taskId := StoreWebAppTask(db, req, generated, now);
    chat := if user.chatId != 0 then user.chatId else user.telegramId;
  }
}

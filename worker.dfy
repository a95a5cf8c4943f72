/** The Celery workers of staticfiles/bot/tasks.py that solve a submitted task: OCR of
    the photo (image tasks only), generation of the solution, the rendered picture, the
    two notifications, and the retry policy with exponential back-off.  The OpenAI
    replies, the preprocessing result and the rendered picture bytes are parameters;
    the external effects of a run are returned as a sequence of calls. */
module Worker {
  import opened Wrappers
  import opened Text
  import opened Models
  import opened Store
  import opened Channel

  /** `max_retries=3` of the three workers. */
  const MAX_RETRIES: nat := 3
  /** Seconds before the first retry; each later retry waits twice as long. */
  const BASE_COUNTDOWN: nat := 60

  function Pow2(n: nat): (r: nat)
    ensures r >= 1
  {
    if n == 0 then 1 else 2 * Pow2(n - 1)
  }

  /** `countdown=60 * (2 ** self.request.retries)`. */
  function RetryCountdown(retries: nat): (r: nat)
    ensures r >= BASE_COUNTDOWN
    ensures retries > 0 ==> r == 2 * RetryCountdown(retries - 1)
  {
    BASE_COUNTDOWN * Pow2(retries)
  }

  /** How a run of a worker ends. `Crashed`: the task row does not exist, and the
      handler itself fails on the unbound `task`, so no retry is scheduled. */
  datatype Outcome =
    | Solved
    | Retrying(countdown: nat, error: string)
    | GaveUp(error: string)
    | Crashed

  /** `self.retry(exc=exc, countdown=...)`: a further run is scheduled while fewer than
      `MAX_RETRIES` retries have happened; after that the error is re-raised. */
  function AfterFailure(retries: nat, error: string): (o: Outcome)
    ensures o.Retrying? || o.GaveUp?
    ensures o.error == error
    ensures o.GaveUp? <==> retries >= MAX_RETRIES
    ensures o.Retrying? ==> o.countdown == RetryCountdown(retries)
  {
    if retries >= MAX_RETRIES then GaveUp(error) else Retrying(RetryCountdown(retries), error)
  }

  /** The waits between the runs of a task that fails on every run, from the run with
      `retries` earlier retries on. */
  function Backoff(retries: nat): (r: seq<nat>)
    ensures |r| == if retries >= MAX_RETRIES then 0 else MAX_RETRIES - retries
    decreases MAX_RETRIES - retries
  {
    match AfterFailure(retries, "")
    case Retrying(countdown, _) => [countdown] + Backoff(retries + 1)
    case _ => []
  }

  function Total(s: seq<nat>): nat
  {
    if s == [] then 0 else s[0] + Total(s[1..])
  }

  /** A task that always fails runs four times, waiting 60, 120 and 240 seconds between
      the runs: seven minutes in all. */
  lemma BackoffSchedule()
    ensures Backoff(0) == [60, 120, 240]
    ensures 1 + |Backoff(0)| == 4
    ensures Total(Backoff(0)) == 420
  {
    assert RetryCountdown(0) == 60;
    assert RetryCountdown(1) == 120;
    assert RetryCountdown(2) == 240;
    assert Backoff(3) == [];
    assert Backoff(2) == [240];
    assert Backoff(1) == [120, 240];
    assert Backoff(0) == [60] + [120, 240];
  }

  /** An effect of a run on the outside world. */
  datatype Call =
    | Ocr(path: string)
    | Generate(text: string)
    | NotifyUser(chatId: int)
    | NotifyChannel(post: ChannelPost)

  /** The row after a successful run: the solution stored, the picture stored when one
      was rendered (an empty picture counts as none), completed now. */
  function SolvedRow(t: Task, solution: string, rendered: Option<Blob>, now: Timestamp): (r: Task)
    ensures r.status == Completed && r.completedAt == Some(now) && r.solution == solution
    ensures r.solutionImage == if rendered.Some? && rendered.value != [] then rendered else t.solutionImage
    ensures r.(status := t.status, completedAt := t.completedAt, solution := t.solution, solutionImage := t.solutionImage) == t
  {
    var withImage := if rendered.Some? && rendered.value != [] then t.(solutionImage := rendered) else t;
    withImage.(solution := solution, status := Completed, completedAt := Some(now))
  }

  /** The row after a failed run: failed, with the error's text. */
  function FailedRow(t: Task, error: string): (r: Task)
    ensures r.status == Failed && r.errorMessage == Some(error)
    ensures r.(status := t.status, errorMessage := t.errorMessage) == t
  {
    t.(status := Failed, errorMessage := Some(error))
  }

  /** The row a text run leaves: generation gets the stored description; its reply,
      stripped, is the solution. */
  function TextRun(t: Task, generated: Result<string>, rendered: Option<Blob>, now: Timestamp): (r: Task)
    ensures r.status == Completed || r.status == Failed
    ensures r.id == t.id && r.owner == t.owner
  {
    var p := t.(status := Processing);
    match generated
    case Ok(reply) => SolvedRow(p, Strip(reply), rendered, now)
    case Err(e) => FailedRow(p, e)
  }

  /** `if not task.image`: no photo is attached. */
  predicate HasImage(t: Task)
  {
    t.image.Some? && t.image.value != ""
  }

  /** The row an image run leaves: without a photo it is a text run; otherwise the OCR
      reply, stripped, replaces the description before the solution is generated. */
  function ImageRun(t: Task, extracted: Result<string>, generated: Result<string>, rendered: Option<Blob>, now: Timestamp): (r: Task)
    ensures r.status == Completed || r.status == Failed
    ensures r.id == t.id && r.owner == t.owner
    ensures HasImage(t) && extracted.Err? ==> r.status == Failed
  {
    if !HasImage(t) then TextRun(t, generated, rendered, now)
    else
      match extracted
      case Ok(text) => TextRun(t.(description := Strip(text)), generated, rendered, now)
      case Err(e) => FailedRow(t.(status := Processing), e)
  }

  /** A run never leaves a task pending or processing; it completes exactly when the
      solution was generated, and the row's identity and submission fields stay. */
  lemma TextRunSettles(t: Task, generated: Result<string>, rendered: Option<Blob>, now: Timestamp)
    ensures var r := TextRun(t, generated, rendered, now);
            && (r.status == Completed || r.status == Failed)
            && (r.status == Completed <==> generated.Ok?)
            && (generated.Ok? ==> r.solution == Strip(generated.value) && r.completedAt == Some(now)
                                  && r.errorMessage == t.errorMessage)
            && (generated.Err? ==> r.errorMessage == Some(generated.message) && r.solution == t.solution
                                   && r.completedAt == t.completedAt && r.solutionImage == t.solutionImage)
            && r.id == t.id && r.owner == t.owner && r.description == t.description
            && r.image == t.image && r.source == t.source && r.createdAt == t.createdAt
  {
  }

  /** With a photo, the description becomes the recognised text when OCR succeeds and
      stays as it was when OCR fails (and then nothing is generated). */
  lemma ImageRunDescription(t: Task, extracted: Result<string>, generated: Result<string>, rendered: Option<Blob>, now: Timestamp)
    requires HasImage(t)
    ensures var r := ImageRun(t, extracted, generated, rendered, now);
            && (extracted.Ok? ==> r.description == Strip(extracted.value)
                                  && (r.status == Completed <==> generated.Ok?))
            && (extracted.Err? ==> r.description == t.description && r.status == Failed
                                   && r.errorMessage == Some(extracted.message) && r.solution == t.solution)
  {
  }

  /** A photo-less task sent to the image worker ends exactly as under the text worker. */
  lemma ImageRunWithoutImage(t: Task, extracted: Result<string>, generated: Result<string>, rendered: Option<Blob>, now: Timestamp)
    requires !HasImage(t)
    ensures ImageRun(t, extracted, generated, rendered, now) == TextRun(t, generated, rendered, now)
  {
  }

  /** A retry that succeeds after a failed run yields the row of a first-time success,
      except that the earlier error message is kept: no run clears it. */
  lemma RetryKeepsError(t: Task, e: string, reply: string, r1: Option<Blob>, r2: Option<Blob>, now1: Timestamp, now2: Timestamp)
    ensures TextRun(TextRun(t, Err(e), r1, now1), Ok(reply), r2, now2)
            == TextRun(t, Ok(reply), r2, now2).(errorMessage := Some(e))
  {
  }

  /** The two notices sent after a success, built from the saved row. */
  function Notices(row: Task, u: User): (r: seq<Call>)
    ensures |r| == 2 && r[0].NotifyUser? && r[1].NotifyChannel?
    ensures r[1].post.taskId == row.id
  {
    [NotifyUser(NoticeChat(u)), NotifyChannel(ChannelPostFor(row.description, row.solution, u.username, row.id))]
  }

  /** `send_task_completed_notification` and `send_channel_notification`: the owner is
      told in their chat, and the channel gets the broadcast of the saved row. */
  method SendNotices(row: Task, u: User) returns (notices: seq<Call>)
    ensures notices == Notices(row, u)
  {
    var chat := if u.chatId != 0 then u.chatId else u.telegramId;
    var post := BuildChannelPost(row.description, row.solution, u.username, row.id);
    notices := [NotifyUser(chat), NotifyChannel(post)];
  }

  /** The calls of a text run: one generation request, then the notices on success. */
  function TextCalls(t: Task, u: User, generated: Result<string>, rendered: Option<Blob>, now: Timestamp): seq<Call>
  {
    if generated.Ok? then [Generate(t.description)] + Notices(TextRun(t, generated, rendered, now), u)
    else [Generate(t.description)]
  }

  /** The file OCR reads: `image_path.replace('.', '_processed.')` when preprocessing
      wrote its output, the original file when it failed. */
  function PreprocessedPath(path: string, preprocessed: bool): (r: string)
    ensures !preprocessed ==> r == path
    ensures preprocessed ==> |r| >= |path|
  {
    if preprocessed then ReplaceAll(path, ".", "_processed.") else path
  }

  /** For a name with a single dot, the processed copy is named with `_processed`
      before the extension. */
  lemma ProcessedName(base: string, ext: string)
    requires '.' !in base && '.' !in ext
    ensures PreprocessedPath(base + "." + ext, true) == base + "_processed." + ext
  {
    var pat, rep := ".", "_processed.";
    assert base + "." + ext == base + ("." + ext);
    ReplaceAllPlainPrefix(base, "." + ext, pat, rep);
    ReplaceAllMatchHead(ext, pat, rep);
    forall i | 0 <= i <= |ext| - |pat|
      ensures !OccursAt(ext, pat, i)
    {
      assert ext[i..i + 1][0] == ext[i];
    }
    ReplaceAllAbsent(ext, pat, rep);
    assert base + "_processed." + ext == base + (rep + ext);
  }

  /** `task.image.path`: the stored name under the media directory. */
  function ImagePath(mediaRoot: string, name: string): string
  {
    mediaRoot + "/" + name
  }

  /** The calls of an image run. */
  function ImageCalls(t: Task, u: User, mediaRoot: string, preprocessed: bool, extracted: Result<string>,
                      generated: Result<string>, rendered: Option<Blob>, now: Timestamp): seq<Call>
  {
    if !HasImage(t) then TextCalls(t, u, generated, rendered, now)
    else
      [Ocr(PreprocessedPath(ImagePath(mediaRoot, t.image.value), preprocessed))]
      + match extracted
        case Ok(text) => TextCalls(t.(description := Strip(text)), u, generated, rendered, now)
        case Err(_) => []
  }

  /** How a run ends once its row was found. */
  function RunOutcome(error: Option<string>, retries: nat): (o: Outcome)
    ensures o.Solved? <==> error.None?
    ensures error.Some? ==> o == AfterFailure(retries, error.value)
  {
    if error.None? then Solved else AfterFailure(retries, error.value)
  }

  /** `task.status = 'processing'; task.save()` on the row just read. */
  method MarkProcessing(db: Database, id: TaskId, now: Timestamp) returns (row: Task)
    requires db.Valid() && id in db.tasks
    modifies db`tasks
    ensures db.Valid()
    ensures row == old(db.tasks)[id].(status := Processing)
    ensures db.tasks == old(db.tasks)[id := row]
  {
    row := db.tasks[id].(status := Processing);
    db.SaveTask(row, now);
  }

  /** The failure handler: status failed and the exception's text, saved. */
  method SaveFailure(db: Database, row: Task, error: string, now: Timestamp) returns (saved: Task)
    requires db.Valid() && row.id in db.tasks && row.owner in db.users
    modifies db`tasks
    ensures db.Valid()
    ensures saved == FailedRow(row, error)
    ensures db.tasks == old(db.tasks)[row.id := saved]
  {
    saved := row.(status := Failed, errorMessage := Some(error));
    db.SaveTask(saved, now);
  }

  /** Saving the result: the solution, the picture when one was rendered, completed now. */
  method SaveSolution(db: Database, row: Task, solution: string, rendered: Option<Blob>, now: Timestamp)
    returns (saved: Task)
    requires db.Valid() && row.id in db.tasks && row.owner in db.users
    modifies db`tasks
    ensures db.Valid()
    ensures saved == SolvedRow(row, solution, rendered, now)
    ensures db.tasks == old(db.tasks)[row.id := saved]
  {
    saved := row.(solution := solution);
    if rendered.Some? && rendered.value != [] {
      saved := saved.(solutionImage := rendered);
    }
    saved := saved.(status := Completed, completedAt := Some(now));
    db.SaveTask(saved, now);
  }

  /** The `try` block and the failure branch shared by the text workers: processing is
      saved, the solution generated, the result or the error saved and, on success, the
      user and the channel told. `error` is the text of the exception raised, if any. */
  method Attempt(db: Database, id: TaskId, generated: Result<string>, rendered: Option<Blob>, now: Timestamp)
    returns (error: Option<string>, calls: seq<Call>)
    requires db.Valid() && id in db.tasks
    modifies db`tasks
    ensures db.Valid()
    ensures db.tasks == old(db.tasks)[id := TextRun(old(db.tasks)[id], generated, rendered, now)]
    ensures error == if generated.Ok? then None else Some(generated.message)
    ensures calls == TextCalls(old(db.tasks)[id], db.users[old(db.tasks)[id].owner], generated, rendered, now)
  {
    ghost var t := db.tasks[id];
    var row := MarkProcessing(db, id, now);
    ghost var processing := row;
    calls := [Generate(row.description)];
    match generated {
    case Err(e) =>
      row := SaveFailure(db, row, e, now);
      error := Some(e);
    case Ok(reply) =>
      row := SaveSolution(db, row, Strip(reply), rendered, now);
      var notices := SendNotices(row, db.users[row.owner]);
      calls := calls + notices;
      error := None;
    }
    OverwriteRow(old(db.tasks), id, processing, row);
  }

  /** `process_text_task` and `process_task_text` (the two workers have the same body):
      one run on the task `id`, the `retries`-th retry of its job. */
  method ProcessText(db: Database, id: TaskId, generated: Result<string>, rendered: Option<Blob>, retries: nat, now: Timestamp)
    returns (outcome: Outcome, calls: seq<Call>)
    requires db.Valid()
    modifies db`tasks
    ensures db.Valid()
    ensures id !in old(db.tasks) ==> outcome == Crashed && calls == [] && db.tasks == old(db.tasks)
    ensures id in old(db.tasks) ==>
              && db.tasks == old(db.tasks)[id := TextRun(old(db.tasks)[id], generated, rendered, now)]
              && outcome == RunOutcome(if generated.Ok? then None else Some(generated.message), retries)
              && calls == TextCalls(old(db.tasks)[id], db.users[old(db.tasks)[id].owner], generated, rendered, now)
  {
    if id !in db.tasks {
      outcome, calls := Crashed, [];
      return;
    }
    var error;
    error, calls := Attempt(db, id, generated, rendered, now);
    outcome := RunOutcome(error, retries);
  }

  /** A run starts by marking the row processing, so the status it was read with does
      not matter. */
  lemma TextRunIgnoresStatus(t: Task, u: User, generated: Result<string>, rendered: Option<Blob>, now: Timestamp)
    ensures TextRun(t.(status := Processing), generated, rendered, now) == TextRun(t, generated, rendered, now)
    ensures TextCalls(t.(status := Processing), u, generated, rendered, now) == TextCalls(t, u, generated, rendered, now)
  {
  }

  /** The same holds for the image worker's row, with or without a photo. */
  lemma ImageRunIgnoresStatus(t: Task, extracted: Result<string>, generated: Result<string>, rendered: Option<Blob>,
                              now: Timestamp)
    ensures ImageRun(t.(status := Processing), extracted, generated, rendered, now)
            == ImageRun(t, extracted, generated, rendered, now)
  {
    if HasImage(t) && extracted.Ok? {
      var d := Strip(extracted.value);
      assert t.(status := Processing).(description := d) == t.(description := d).(status := Processing);
    }
  }

  /** ... and for the image worker's calls. */
  lemma ImageCallsIgnoreStatus(t: Task, u: User, mediaRoot: string, preprocessed: bool, extracted: Result<string>,
                               generated: Result<string>, rendered: Option<Blob>, now: Timestamp)
    ensures ImageCalls(t.(status := Processing), u, mediaRoot, preprocessed, extracted, generated, rendered, now)
            == ImageCalls(t, u, mediaRoot, preprocessed, extracted, generated, rendered, now)
  {
    if !HasImage(t) {
      TextRunIgnoresStatus(t, u, generated, rendered, now);
    } else if extracted.Ok? {
      var d := Strip(extracted.value);
      assert t.(status := Processing).(description := d) == t.(description := d).(status := Processing);
      TextRunIgnoresStatus(t.(description := d), u, generated, rendered, now);
    }
  }

  /** `return process_text_task(task_id)` for a task without a photo: the text worker's
      run, whose failure the image worker's handler saves once more. */
  method DelegateToText(db: Database, row: Task, generated: Result<string>, rendered: Option<Blob>, now: Timestamp)
    returns (error: Option<string>, calls: seq<Call>)
    requires db.Valid() && row.id in db.tasks && db.tasks[row.id] == row
    modifies db`tasks
    ensures db.Valid()
    ensures db.tasks == old(db.tasks)[row.id := TextRun(row, generated, rendered, now)]
    ensures error == if generated.Ok? then None else Some(generated.message)
    ensures calls == TextCalls(row, db.users[row.owner], generated, rendered, now)
  {
    error, calls := Attempt(db, row.id, generated, rendered, now);
    if error.Some? {
      ghost var before := db.tasks;
      var failed := SaveFailure(db, row, error.value, now);
      OverwriteRow(old(db.tasks), row.id, before[row.id], failed);
    }
  }

  /** Steps 3 to 6 of `process_task_image`: the recognised text is saved as the
      description, then the text worker's steps run on the saved row. */
  method DescribeAndSolve(db: Database, row: Task, description: string, generated: Result<string>, rendered: Option<Blob>, now: Timestamp)
    returns (error: Option<string>, calls: seq<Call>)
    requires db.Valid() && row.id in db.tasks && row.owner in db.users && row.status == Processing
    modifies db`tasks
    ensures db.Valid()
    ensures db.tasks == old(db.tasks)[row.id := TextRun(row.(description := description), generated, rendered, now)]
    ensures error == if generated.Ok? then None else Some(generated.message)
    ensures calls == TextCalls(row.(description := description), db.users[row.owner], generated, rendered, now)
  {
    var described := row.(description := description);
    db.SaveTask(described, now);
    assert db.tasks == old(db.tasks)[row.id := described];
    error, calls := Attempt(db, row.id, generated, rendered, now);
    OverwriteRow(old(db.tasks), row.id, described, TextRun(described, generated, rendered, now));
  }

  /** Steps 1 to 6 of `process_task_image` for a task with a photo: preprocessing, OCR,
      the recognised text saved as the description, then the text worker's steps; a
      failing OCR is saved by the handler. */
  method SolveFromPhoto(db: Database, row: Task, mediaRoot: string, preprocessed: bool, extracted: Result<string>,
                        generated: Result<string>, rendered: Option<Blob>, now: Timestamp)
    returns (error: Option<string>, calls: seq<Call>)
    requires db.Valid() && row.id in db.tasks && db.tasks[row.id] == row
    requires HasImage(row) && row.status == Processing
    modifies db`tasks
    ensures db.Valid()
    ensures extracted.Err? ==> db.tasks == old(db.tasks)[row.id := FailedRow(row, extracted.message)]
    ensures extracted.Ok? ==>
              db.tasks == old(db.tasks)[row.id := TextRun(row.(description := Strip(extracted.value)), generated, rendered, now)]
    ensures error == if extracted.Err? then Some(extracted.message)
                     else if generated.Ok? then None else Some(generated.message)
    ensures calls == ImageCalls(row, db.users[row.owner], mediaRoot, preprocessed, extracted, generated, rendered, now)
  {
    var path := PreprocessedPath(ImagePath(mediaRoot, row.image.value), preprocessed);
    var more;
    if extracted.Err? {
      var failed := SaveFailure(db, row, extracted.message, now);
      error, more := Some(extracted.message), [];
    } else {
      error, more := DescribeAndSolve(db, row, Strip(extracted.value), generated, rendered, now);
    }
    calls := [Ocr(path)] + more;
  }

  /** `process_task_image`: one run on the task `id`. A task without a photo is handed
      to the text worker, called directly: its failure is re-raised at once and the
      image worker's own handler saves the failure and decides on the retry. */
  method ProcessTaskImage(db: Database, id: TaskId, mediaRoot: string, preprocessed: bool, extracted: Result<string>,
                          generated: Result<string>, rendered: Option<Blob>, retries: nat, now: Timestamp)
    returns (outcome: Outcome, calls: seq<Call>)
    requires db.Valid()
    modifies db`tasks
    ensures db.Valid()
    ensures id !in old(db.tasks) ==> outcome == Crashed && calls == [] && db.tasks == old(db.tasks)
    ensures id in old(db.tasks) ==>
              var t := old(db.tasks)[id];
              && db.tasks == old(db.tasks)[id := ImageRun(t, extracted, generated, rendered, now)]
              && outcome == RunOutcome(if HasImage(t) && extracted.Err? then Some(extracted.message)
                                       else if generated.Ok? then None else Some(generated.message), retries)
              && calls == ImageCalls(t, db.users[t.owner], mediaRoot, preprocessed, extracted, generated, rendered, now)
  {
    if id !in db.tasks {
      outcome, calls := Crashed, [];
      return;
    }
    ghost var t := db.tasks[id];
    var row := MarkProcessing(db, id, now);
    ImageRunIgnoresStatus(t, extracted, generated, rendered, now);
    ImageCallsIgnoreStatus(t, db.users[t.owner], mediaRoot, preprocessed, extracted, generated, rendered, now);
    var error;
    if !(row.image.Some? && row.image.value != "") {
      error, calls := DelegateToText(db, row, generated, rendered, now);
    } else {
      error, calls := SolveFromPhoto(db, row, mediaRoot, preprocessed, extracted, generated, rendered, now);
    }
    assert HasImage(row) && extracted.Err? ==> row.(status := Processing) == row;
    OverwriteRow(old(db.tasks), id, row, ImageRun(t, extracted, generated, rendered, now));
    outcome := RunOutcome(error, retries);
  }
}

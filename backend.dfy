/** The stand-alone FastAPI service of staticfiles/backend.py: a process-wide dictionary
    of task records with create, fetch, list and health endpoints.  Record ids are
    uuid4 strings there; here they are drawn from a counter, which gives the same
    guarantee the code relies on, that a new id is not yet a key. */
module Backend {
  import opened Wrappers
  import opened Text
  import opened Models

  const PENDING: string := "pending"
  const UPLOAD_DIR: string := "uploads/"

  /** An uploaded file, of which only the client's file name is used. */
  datatype Upload = Upload(filename: string)

  /** One stored record; `imagePath` is absent, not empty, for a task without a file. */
  datatype ApiTask = ApiTask(
    id: nat,
    telegramId: int,
    description: string,
    imageFilename: Option<string>,
    createdAt: Timestamp,
    status: string,
    imagePath: Option<string>)

  /** Where an upload for task `id` is said to be saved. */
  function UploadPath(id: nat, filename: string): string
  {
    UPLOAD_DIR + NatText(id) + "_" + filename
  }

  /** The record `create_task` stores. */
  function NewRecord(id: nat, telegramId: int, description: string, image: Option<Upload>, now: Timestamp): (r: ApiTask)
    ensures r.id == id && r.telegramId == telegramId && r.description == description && r.createdAt == now
    ensures r.status == PENDING
    ensures r.imageFilename.None? <==> image.None?
    ensures r.imagePath.None? <==> image.None?
    ensures image.Some? ==> r.imageFilename == Some(image.value.filename)
    ensures image.Some? ==> r.imagePath == Some(UploadPath(id, image.value.filename))
  {
    match image
    case None => ApiTask(id, telegramId, description, None, now, PENDING, None)
    case Some(file) => ApiTask(id, telegramId, description, Some(file.filename), now, PENDING, Some(UploadPath(id, file.filename)))
  }

  /** The `task_data` dictionary of `create_task`, with `image_path` added when a file
      came with the request. */
  method BuildRecord(id: nat, telegramId: int, description: string, image: Option<Upload>, now: Timestamp)
    returns (record: ApiTask)
    ensures record == NewRecord(id, telegramId, description, image, now)
  {
    record := ApiTask(id, telegramId, description, None, now, PENDING, None);
    if image.Some? {
      record := record.(imageFilename := Some(image.value.filename),
                        imagePath := Some(UPLOAD_DIR + NatText(id) + "_" + image.value.filename));
    }
  }

  /** Two digit strings each followed by an underscore cannot be told apart from the
      tails that follow only if they are the same string. */
  lemma DigitsBeforeUnderscore(a: string, x: string, b: string, y: string)
    requires IsDigits(a) && IsDigits(b)
    requires a + "_" + x == b + "_" + y
    ensures a == b
  {
    var s := a + "_" + x;
    assert s[|a|] == '_';
    assert s[|b|] == (b + "_" + y)[|b|] == '_';
    if |a| == |b| {
      assert a == s[..|a|] == b;
    }
  }

  /** Distinct tasks never name the same upload path, whatever the client's file names. */
  lemma UploadPathsDistinct(i: nat, f: string, j: nat, g: string)
    requires UploadPath(i, f) == UploadPath(j, g)
    ensures i == j && f == g
  {
    var p := UploadPath(i, f);
    assert p == UPLOAD_DIR + (NatText(i) + "_" + f);
    assert UploadPath(j, g) == UPLOAD_DIR + (NatText(j) + "_" + g);
    assert NatText(i) + "_" + f == p[|UPLOAD_DIR|..] == NatText(j) + "_" + g;
    DigitsBeforeUnderscore(NatText(i), f, NatText(j), g);
    NatTextInjective(i, j);
    assert f == (NatText(i) + "_" + f)[|NatText(i)| + 1..];
    assert g == (NatText(j) + "_" + g)[|NatText(j)| + 1..];
  }

  /** The dictionary's values in insertion order. */
  function Values(tasks: map<nat, ApiTask>, order: seq<nat>): (r: seq<ApiTask>)
    requires forall i :: 0 <= i < |order| ==> order[i] in tasks
    ensures |r| == |order|
    ensures forall i :: 0 <= i < |order| ==> r[i] == tasks[order[i]]
    decreases |order|
  {
    if order == [] then [] else Values(tasks, order[..|order| - 1]) + [tasks[order[|order| - 1]]]
  }

  /** Appending a fresh key and its record appends the record to the values. */
  lemma ValuesAppend(tasks: map<nat, ApiTask>, order: seq<nat>, id: nat, record: ApiTask)
    requires forall i :: 0 <= i < |order| ==> order[i] in tasks
    requires id !in order
    ensures Values(tasks[id := record], order + [id]) == Values(tasks, order) + [record]
  {
    var after := Values(tasks[id := record], order + [id]);
    forall i | 0 <= i < |order|
      ensures after[i] == Values(tasks, order)[i]
    {
      assert (order + [id])[i] == order[i] != id;
    }
  }

  /** When `order` lists every key, the values hold every record and nothing else. */
  lemma ValuesCover(tasks: map<nat, ApiTask>, order: seq<nat>)
    requires forall k :: k in tasks <==> k in order
    ensures forall i :: 0 <= i < |order| ==> Values(tasks, order)[i] in tasks.Values
    ensures forall k :: k in tasks ==> tasks[k] in Values(tasks, order)
  {
    var r := Values(tasks, order);
    forall k | k in tasks
      ensures tasks[k] in r
    {
      var i :| 0 <= i < |order| && order[i] == k;
      assert r[i] == tasks[k];
    }
  }

  /** A key sequence without repeats is exactly as long as the set it enumerates. */
  lemma {:induction false} DistinctCount(order: seq<nat>, keys: set<nat>)
    requires forall i, j :: 0 <= i < j < |order| ==> order[i] != order[j]
    requires forall k :: k in keys <==> k in order
    ensures |keys| == |order|
    decreases |order|
  {
    if order != [] {
      var last := order[|order| - 1];
      var front := order[..|order| - 1];
      forall k
        ensures k in keys - {last} <==> k in front
      {
        if k in front {
          var i :| 0 <= i < |front| && front[i] == k;
          assert order[i] == k;
        }
        if k in keys - {last} {
          var i :| 0 <= i < |order| && order[i] == k;
          assert i != |order| - 1;
          assert front[i] == k;
        }
      }
      DistinctCount(front, keys - {last});
    }
  }

  /** Every key is below the next id and names its own record, and `order` lists each
      key exactly once. */
  ghost predicate Consistent(tasks: map<nat, ApiTask>, order: seq<nat>, nextId: nat)
  {
    && (forall k :: k in tasks ==> k < nextId && tasks[k].id == k)
    && (forall k :: k in tasks <==> k in order)
    && (forall i, j :: 0 <= i < j < |order| ==> order[i] != order[j])
  }

  /** Storing a record under the next id keeps the dictionary consistent. */
  lemma ConsistentAppend(tasks: map<nat, ApiTask>, order: seq<nat>, nextId: nat, record: ApiTask)
    requires Consistent(tasks, order, nextId) && record.id == nextId
    ensures nextId !in tasks && nextId !in order
    ensures forall i :: 0 <= i < |order| ==> order[i] in tasks
    ensures Consistent(tasks[nextId := record], order + [nextId], nextId + 1)
  {
    var order' := order + [nextId];
    forall k
      ensures k in order' <==> k in order || k == nextId
    {
      if k in order' {
        var i :| 0 <= i < |order'| && order'[i] == k;
        if i < |order| {
          assert order[i] == k;
        }
      }
      if k in order {
        var i :| 0 <= i < |order| && order[i] == k;
        assert order'[i] == k;
      }
    }
    forall i, j | 0 <= i < j < |order'|
      ensures order'[i] != order'[j]
    {
      if j < |order| {
        assert order'[i] == order[i] && order'[j] == order[j];
      } else {
        assert order'[i] == order[i] && order[i] in tasks;
      }
    }
  }

  /** The module-level `tasks` dictionary; `order` is the insertion order a Python
      dict keeps, and `nextId` stands in for the uuid generator. */
  class TaskStore {
    var tasks: map<nat, ApiTask>
    var order: seq<nat>
    var nextId: nat

    ghost predicate Valid()
      reads this
    {
      Consistent(tasks, order, nextId)
    }

    /** `tasks = {}` at start-up. */
    constructor()
      ensures Valid() && tasks == map[] && order == []
    {
      tasks, order, nextId := map[], [], 0;
    }

    /** `get_tasks`: every stored record, in the order of creation. */
    function Listing(): (r: seq<ApiTask>)
      requires Valid()
      reads this
      ensures |r| == |tasks|
      ensures forall i :: 0 <= i < |r| ==> r[i] in tasks.Values
      ensures forall k :: k in tasks ==> tasks[k] in r
    {
      DistinctCount(order, tasks.Keys);
      ValuesCover(tasks, order);
      Values(tasks, order)
    }

    /** `get_task`: the record under `id`, or nothing (a 404). */
    function Get(id: nat): (r: Option<ApiTask>)
      reads this
      ensures r.Some? <==> id in tasks
      ensures r.Some? ==> r.value == tasks[id]
    {
      if id in tasks then Some(tasks[id]) else None
    }

    /** `health_check`: the number of stored tasks. */
    function TasksCount(): (n: nat)
      requires Valid()
      reads this
      ensures n == |Listing()|
    {
      |tasks|
    }

    /** `create_task`: stores a pending record under a fresh id and answers 201 with
        the id and the telegram id. */
    method Create(telegramId: int, description: string, image: Option<Upload>, now: Timestamp)
      returns (code: int, id: nat, echoed: int)
      requires Valid()
      modifies this
      ensures Valid()
      ensures code == 201 && echoed == telegramId
      ensures id !in old(tasks)
      ensures tasks == old(tasks)[id := NewRecord(id, telegramId, description, image, now)]
      ensures order == old(order) + [id]
      ensures nextId == old(nextId) + 1
      ensures Values(tasks, order) == Values(old(tasks), old(order)) + [NewRecord(id, telegramId, description, image, now)]
    {
      id := nextId;
      nextId := nextId + 1;
      var record := BuildRecord(id, telegramId, description, image, now);
      ConsistentAppend(tasks, order, id, record);
      ValuesAppend(tasks, order, id, record);
      tasks := tasks[id := record];
      order := order + [id];
      code, echoed := 201, telegramId;
    }
  }

  /** A record can be fetched back right after it was created, and creating one leaves
      every other record as it was and adds one to the health count. */
  method CreateThenGet(store: TaskStore, telegramId: int, description: string, image: Option<Upload>, now: Timestamp)
    returns (id: nat, fetched: Option<ApiTask>)
    requires store.Valid()
    modifies store
    ensures store.Valid()
    ensures fetched == Some(NewRecord(id, telegramId, description, image, now))
    ensures forall k :: k in old(store.tasks) ==> store.Get(k) == old(store.Get(k))
    ensures store.TasksCount() == old(store.TasksCount()) + 1
  {
    var code, echoed;
    code, id, echoed := store.Create(telegramId, description, image, now);
    fetched := store.Get(id);
  }
}

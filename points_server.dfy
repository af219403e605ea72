/**
 * The points and task service behind the Memes Boost site.
 *
 * Three SQLite tables back the service: `users` (AUTOINCREMENT id, UNIQUE wallet
 * address), `tasks` (AUTOINCREMENT id, active flag defaulting to 1) and `user_tasks`
 * (one row per completed (user, task) pair). Each HTTP handler is one guarded
 * read-modify-write over those tables; here the tables are the fields of a class and
 * each handler is a method returning the status code and payload it would send.
 */
module PointsServer {
  import opened Wrappers
  import opened TextCodec

  /** Registration is refused once this many users exist. */
  const MaxUsers := 222

  /** A `CURRENT_TIMESTAMP` reading, supplied by the caller. */
  type Timestamp = int

  datatype User = User(id: int, wallet: string, xProfile: string, points: int, lastBoost: Option<Timestamp>)

  datatype Task = Task(id: int, description: string, link: string, points: int, isActive: bool)

  /** A JSON request value, kept general where the handler only tests its truthiness. */
  datatype Json = Undefined | Null | Bool(b: bool) | Num(n: int) | Text(s: string) | Composite

  /** The JSON values JavaScript treats as false. */
  const Falsy: set<Json> := {Undefined, Null, Bool(false), Num(0), Text("")}

  /** JavaScript truthiness of a JSON value: every value except the falsy ones. */
  predicate Truthy(v: Json)
    ensures Truthy(v) <==> v !in Falsy
  {
    match v
    case Undefined => false
    case Null => false
    case Bool(b) => b
    case Num(n) => n != 0
    case Text(s) => s != ""
    case Composite => true
  }

  /** A text field passes `!field` when it is present and not empty. */
  predicate PresentText(f: Option<string>) {
    f.Some? && f.value != ""
  }

  /** A numeric field passes `!field` when it is present and not 0. */
  predicate PresentNumber(f: Option<int>) {
    f.Some? && f.value != 0
  }

  /** One row of `GET /api/users`: the user's columns and its derived `completed_tasks`. */
  datatype UserRow = UserRow(user: User, completedTasks: seq<JsNumber>)

  datatype Body =
    | Error(message: string)
    | NoContent
    | TaskList(tasks: seq<Task>)
    | TaskCreated(task: Task)
    | Toggled(id: int, isActive: Json)
    | Registered(id: int, wallet: string, xProfile: string, points: int)
    | Boosted(points: int, lastBoost: Option<Timestamp>)
    | Progress(points: int, completedTasks: seq<JsNumber>)
    | UserList(rows: seq<UserRow>)

  /** What a handler sends back, or `Crash` when it throws before responding. */
  datatype Reply = Respond(status: int, body: Body) | Crash

  /** `completed_tasks` lists each id of `ids` exactly once, and nothing else. */
  ghost predicate Reports(completed: seq<JsNumber>, ids: set<int>) {
    && |completed| == |ids|
    && NaN !in completed
    && forall x :: Int(x) in completed <==> x in ids
  }

  /** The users table without the row (if any) holding this wallet address. */
  function WithoutWallet(users: map<int, User>, wallet: string): (r: map<int, User>)
    ensures forall id :: id in r <==> id in users && users[id].wallet != wallet
    ensures forall id :: id in r ==> r[id] == users[id]
  {
    map id | id in users && users[id].wallet != wallet :: users[id]
  }

  /** Adds `amount` to the points of user `id`; a missing user leaves the table as it is. */
  function Award(users: map<int, User>, id: int, amount: int): (r: map<int, User>)
    ensures r.Keys == users.Keys
    ensures id in users ==> r[id] == users[id].(points := users[id].points + amount)
    ensures forall other :: other in users && other != id ==> r[other] == users[other]
  {
    if id in users then users[id := users[id].(points := users[id].points + amount)] else users
  }

  /** Each wallet address belongs to at most one user row. */
  ghost predicate WalletsUnique(users: map<int, User>) {
    forall a, b :: a in users && b in users && users[a].wallet == users[b].wallet ==> a == b
  }

  /**
   * Removing a wallet's row shrinks the table by one when that wallet is registered
   * and leaves it as it is otherwise.
   */
  lemma {:induction false} WithoutWalletSize(users: map<int, User>, wallet: string)
    requires WalletsUnique(users)
    ensures |WithoutWallet(users, wallet)| ==
            if exists id :: id in users && users[id].wallet == wallet then |users| - 1 else |users|
  {
    var r := WithoutWallet(users, wallet);
    if id :| id in users && users[id].wallet == wallet {
      forall k | k in users
        ensures k in r <==> k != id
      {
        assert users[k].wallet == users[id].wallet ==> k == id;
      }
      assert r.Keys == users.Keys - {id};
    } else {
      forall k | k in users
        ensures k in r
      {
        assert !(k in users && users[k].wallet == wallet);
      }
      assert r.Keys == users.Keys;
    }
  }

  class PointsDb {
    var users: map<int, User>
    var tasks: map<int, Task>
    /** `user_tasks`: each (user_id, task_id) pair at most once, by its primary key. */
    var userTasks: set<(int, int)>
    /** The largest user id ever issued (SQLite's `sqlite_sequence` for `users`). */
    var userSeq: nat
    /** The largest task id ever issued. */
    var taskSeq: nat

    ghost predicate Valid()
      reads this
    {
      && |users| <= MaxUsers
      && (forall id :: id in users ==> 1 <= id <= userSeq && users[id].id == id && users[id].wallet != "")
      && WalletsUnique(users)
      && (forall id :: id in tasks ==> 1 <= id <= taskSeq && tasks[id].id == id)
    }

    /** The task ids recorded for user `id` in `user_tasks`. */
    function CompletedBy(id: int): set<int>
      reads this
    {
      set p | p in userTasks && p.0 == id :: p.1
    }

    constructor ()
      ensures Valid()
      ensures users == map[] && tasks == map[] && userTasks == {}
      ensures userSeq == 0 && taskSeq == 0
    {
      users, tasks, userTasks := map[], map[], {};
      userSeq, taskSeq := 0, 0;
    }

    /** `GET /api/tasks`: every task whose active flag is set, each once, and no other. */
    method ListActiveTasks() returns (r: Reply)
      requires Valid()
      ensures r.Respond? && r.status == 200 && r.body.TaskList?
      ensures forall t :: t in r.body.tasks ==> t.id in tasks && tasks[t.id] == t && t.isActive
      ensures forall id :: id in tasks && tasks[id].isActive ==> tasks[id] in r.body.tasks
      ensures forall i, j :: 0 <= i < j < |r.body.tasks| ==> r.body.tasks[i].id != r.body.tasks[j].id
    {
      var rest := tasks.Keys;
      var out: seq<Task> := [];
      while rest != {}
        invariant rest <= tasks.Keys
        invariant forall t :: t in out ==> t.id in tasks && tasks[t.id] == t && t.isActive && t.id !in rest
        invariant forall id :: id in tasks && id !in rest && tasks[id].isActive ==> tasks[id] in out
        invariant forall i, j :: 0 <= i < j < |out| ==> out[i].id != out[j].id
        decreases rest
      {
        assert (forall e :: e !in rest) ==> rest == {};
        var k :| k in rest;
        if tasks[k].isActive {
          out := out + [tasks[k]];
        }
        rest := rest - {k};
      }
      r := Respond(200, TaskList(out));
    }

    /**
     * `POST /api/tasks`: a missing or falsy description, link or points (0 included)
     * is refused with 400; otherwise one active task is added under a fresh id.
     */
    method CreateTask(description: Option<string>, link: Option<string>, points: Option<int>) returns (r: Reply)
      requires Valid()
      modifies this
      ensures Valid()
      ensures users == old(users) && userTasks == old(userTasks) && userSeq == old(userSeq)
      ensures !(PresentText(description) && PresentText(link) && PresentNumber(points)) ==>
                r == Respond(400, Error("Missing required fields")) && tasks == old(tasks) && taskSeq == old(taskSeq)
      ensures PresentText(description) && PresentText(link) && PresentNumber(points) ==>
                var t := Task(old(taskSeq) + 1, description.value, link.value, points.value, true);
                && taskSeq == old(taskSeq) + 1
                && t.id !in old(tasks)
                && (forall id :: id in old(tasks) ==> id < t.id)
                && tasks == old(tasks)[t.id := t]
                && r == Respond(201, TaskCreated(t))
    {
      if !(PresentText(description) && PresentText(link) && PresentNumber(points)) {
        return Respond(400, Error("Missing required fields"));
      }
      taskSeq := taskSeq + 1;
      var t := Task(taskSeq, description.value, link.value, points.value, true);
      tasks := tasks[t.id := t];
      r := Respond(201, TaskCreated(t));
    }

    /**
     * `DELETE /api/tasks/:id`: 404 when no row has that id, else the row goes and 204 is
     * sent. Completion rows naming the task stay: foreign keys are not enforced.
     */
    method DeleteTask(id: int) returns (r: Reply)
      requires Valid()
      modifies this
      ensures Valid()
      ensures users == old(users) && userTasks == old(userTasks) && userSeq == old(userSeq) && taskSeq == old(taskSeq)
      ensures id !in old(tasks) ==> r == Respond(404, Error("Task not found")) && tasks == old(tasks)
      ensures id in old(tasks) ==> r == Respond(204, NoContent) && tasks == old(tasks) - {id}
    {
      if id !in tasks {
        return Respond(404, Error("Task not found"));
      }
      tasks := tasks - {id};
      r := Respond(204, NoContent);
    }

    /**
     * `PATCH /api/tasks/:id/toggle`: sets the flag to the truthiness of the body's
     * `is_active` (it does not flip it), echoing the value as sent; 404 for an unknown id.
     */
    method ToggleTask(id: int, isActive: Json) returns (r: Reply)
      requires Valid()
      modifies this
      ensures Valid()
      ensures users == old(users) && userTasks == old(userTasks) && userSeq == old(userSeq) && taskSeq == old(taskSeq)
      ensures id !in old(tasks) ==> r == Respond(404, Error("Task not found")) && tasks == old(tasks)
      ensures id in old(tasks) ==>
                && tasks == old(tasks)[id := old(tasks)[id].(isActive := Truthy(isActive))]
                && r == Respond(200, Toggled(id, isActive))
    {
      if id !in tasks {
        return Respond(404, Error("Task not found"));
      }
      tasks := tasks[id := tasks[id].(isActive := Truthy(isActive))];
      r := Respond(200, Toggled(id, isActive));
    }

    /**
     * `POST /api/users`: the population cap is checked first (403), then the fields (400).
     * `INSERT OR REPLACE` drops any row holding the wallet and inserts a fresh one with
     * a new id, 0 points and no boost time; completions of the old id stay behind.
     */
    method RegisterUser(wallet: Option<string>, xProfile: Option<string>) returns (r: Reply)
      requires Valid()
      modifies this
      ensures Valid()
      ensures tasks == old(tasks) && userTasks == old(userTasks) && taskSeq == old(taskSeq)
      ensures old(|users|) >= MaxUsers ==>
                r == Respond(403, Error("User limit reached")) && users == old(users) && userSeq == old(userSeq)
      ensures old(|users|) < MaxUsers && !(PresentText(wallet) && PresentText(xProfile)) ==>
                r == Respond(400, Error("Missing required fields")) && users == old(users) && userSeq == old(userSeq)
      ensures old(|users|) < MaxUsers && PresentText(wallet) && PresentText(xProfile) ==>
                var u := User(old(userSeq) + 1, wallet.value, xProfile.value, 0, None);
                && userSeq == old(userSeq) + 1
                && (forall id :: id in old(users) ==> id < u.id)
                && users == WithoutWallet(old(users), wallet.value)[u.id := u]
                && |users| == (if exists id :: id in old(users) && old(users)[id].wallet == wallet.value
                               then old(|users|) else old(|users|) + 1)
                && r == Respond(201, Registered(u.id, u.wallet, u.xProfile, 0))
    {
      if |users| >= MaxUsers {
        return Respond(403, Error("User limit reached"));
      }
      if !(PresentText(wallet) && PresentText(xProfile)) {
        return Respond(400, Error("Missing required fields"));
      }
      WithoutWalletSize(users, wallet.value);
      var kept := WithoutWallet(users, wallet.value);
      userSeq := userSeq + 1;
      var u := User(userSeq, wallet.value, xProfile.value, 0, None);
      assert u.id !in kept;
      users := kept[u.id := u];
      r := Respond(201, Registered(u.id, u.wallet, u.xProfile, 0));
    }

    /**
     * `POST /api/boost`: 400 without a `user_id`, 400 "Invalid user" when no row has it,
     * else +1 point and the boost time set to now. There is no 24-hour throttle.
     */
    method Boost(userId: Option<int>, now: Timestamp) returns (r: Reply)
      requires Valid()
      modifies this
      ensures Valid()
      ensures tasks == old(tasks) && userTasks == old(userTasks) && userSeq == old(userSeq) && taskSeq == old(taskSeq)
      ensures !PresentNumber(userId) ==> r == Respond(400, Error("Missing user_id")) && users == old(users)
      ensures PresentNumber(userId) && userId.value !in old(users) ==>
                r == Respond(400, Error("Invalid user")) && users == old(users)
      ensures PresentNumber(userId) && userId.value in old(users) ==>
                var was := old(users)[userId.value];
                && users == old(users)[userId.value := was.(points := was.points + 1, lastBoost := Some(now))]
                && r == Respond(200, Boosted(was.points + 1, Some(now)))
    {
      if !PresentNumber(userId) {
        return Respond(400, Error("Missing user_id"));
      }
      var id := userId.value;
      if id !in users {
        return Respond(400, Error("Invalid user"));
      }
      var was := users[id];
      users := users[id := was.(points := was.points + 1, lastBoost := Some(now))];
      r := Respond(200, Boosted(was.points + 1, Some(now)));
    }

    /** The task ids of user `id` in `user_tasks`, each once, in no particular order. */
    method CompletedTaskIds(id: int) returns (ids: seq<int>)
      ensures forall x :: x in ids <==> x in CompletedBy(id)
      ensures |ids| == |CompletedBy(id)|
    {
      var rest := userTasks;
      ids := [];
      ghost var seen: set<int> := {};
      while rest != {}
        invariant rest <= userTasks
        invariant forall x :: x in ids <==> x in seen
        invariant |ids| == |seen|
        invariant seen == (set p | p in userTasks - rest && p.0 == id :: p.1)
        decreases rest
      {
        var p :| p in rest;
        if p.0 == id {
          assert p.1 !in seen;
          ids := ids + [p.1];
          seen := seen + {p.1};
        }
        rest := rest - {p};
      }
      assert userTasks - rest == userTasks;
    }

    /**
     * The `completed_tasks` value both user queries send: the `GROUP_CONCAT` subquery
     * over the user's rows, read back with `split(',').map(Number)`.
     */
    method CompletedTasksColumn(id: int) returns (completed: seq<JsNumber>)
      ensures Reports(completed, CompletedBy(id))
    {
      var ids := CompletedTaskIds(id);
      completed := CompletedField(GroupConcat(ids));
      CompletedFieldRoundTrip(ids);
      LiftReports(ids, CompletedBy(id));
    }

    /**
     * `POST /api/tasks/complete`: 400 unless `user_id`, `task_id` and `task_points` are
     * all truthy. `INSERT OR IGNORE` records the pair once; only a newly recorded pair
     * adds `task_points` (trusted as sent) to the user's points. The reply carries the
     * points and the user's recorded task ids. Neither the task nor the user is looked
     * up first: for an unknown user the pair is still recorded and the handler then
     * throws on the missing row.
     */
    method CompleteTask(userId: Option<int>, taskId: Option<int>, taskPoints: Option<int>) returns (r: Reply)
      requires Valid()
      modifies this
      ensures Valid()
      ensures tasks == old(tasks) && userSeq == old(userSeq) && taskSeq == old(taskSeq)
      ensures !(PresentNumber(userId) && PresentNumber(taskId) && PresentNumber(taskPoints)) ==>
                r == Respond(400, Error("Missing required fields")) && users == old(users) && userTasks == old(userTasks)
      ensures PresentNumber(userId) && PresentNumber(taskId) && PresentNumber(taskPoints) ==>
                var u, t := userId.value, taskId.value;
                && userTasks == old(userTasks) + {(u, t)}
                && users == (if (u, t) in old(userTasks) then old(users) else Award(old(users), u, taskPoints.value))
                && (u in users ==> r.Respond? && r.status == 200 && r.body.Progress?
                                   && r.body.points == users[u].points
                                   && Reports(r.body.completedTasks, CompletedBy(u)))
                && (u !in users ==> r == Crash)
    {
      if !(PresentNumber(userId) && PresentNumber(taskId) && PresentNumber(taskPoints)) {
        return Respond(400, Error("Missing required fields"));
      }
      var u, t := userId.value, taskId.value;
      if (u, t) !in userTasks {
        userTasks := userTasks + {(u, t)};
        users := Award(users, u, taskPoints.value);
      }
      if u !in users {
        return Crash;
      }
      var completed := CompletedTasksColumn(u);
      r := Respond(200, Progress(users[u].points, completed));
    }

    /** `GET /api/users`: every user once, each with its recorded task ids. */
    method ListUsers() returns (r: Reply)
      requires Valid()
      ensures r.Respond? && r.status == 200 && r.body.UserList?
      ensures forall i :: 0 <= i < |r.body.rows| ==>
                r.body.rows[i].user.id in users && users[r.body.rows[i].user.id] == r.body.rows[i].user
      ensures forall id :: id in users ==> exists i :: 0 <= i < |r.body.rows| && r.body.rows[i].user == users[id]
      ensures forall i, j :: 0 <= i < j < |r.body.rows| ==> r.body.rows[i].user.id != r.body.rows[j].user.id
      ensures forall i :: 0 <= i < |r.body.rows| ==>
                Reports(r.body.rows[i].completedTasks, CompletedBy(r.body.rows[i].user.id))
    {
      var rest := users.Keys;
      var rows: seq<UserRow> := [];
      ghost var at: map<int, nat> := map[];
      while rest != {}
        invariant rest <= users.Keys
        invariant forall i :: 0 <= i < |rows| ==>
                    rows[i].user.id in users && users[rows[i].user.id] == rows[i].user && rows[i].user.id !in rest
        invariant forall id :: id in users && id !in rest ==> id in at && at[id] < |rows| && rows[at[id]].user == users[id]
        invariant forall i, j :: 0 <= i < j < |rows| ==> rows[i].user.id != rows[j].user.id
        invariant forall i :: 0 <= i < |rows| ==> Reports(rows[i].completedTasks, CompletedBy(rows[i].user.id))
        decreases rest
      {
        assert (forall e :: e !in rest) ==> rest == {};
        var k :| k in rest;
        var completed := CompletedTasksColumn(k);
        var row := UserRow(users[k], completed);
        rows, at := rows + [row], at[k := |rows|];
        rest := rest - {k};
      }
      forall id | id in users
        ensures exists i :: 0 <= i < |rows| && rows[i].user == users[id]
      {
        assert rows[at[id]].user == users[id];
      }
      r := Respond(200, UserList(rows));
    }
  }

  /** Lifting an exact, duplicate-free enumeration of `ids` reports exactly `ids`. */
  lemma LiftReports(xs: seq<int>, ids: set<int>)
    requires forall x :: x in xs <==> x in ids
    requires |xs| == |ids|
    ensures Reports(Lift(xs), ids)
  {
    forall x
      ensures Int(x) in Lift(xs) <==> x in ids
    {
      if Int(x) in Lift(xs) {
        var i :| 0 <= i < |xs| && Lift(xs)[i] == Int(x);
        assert xs[i] == x;
      }
      if x in ids {
        var i :| 0 <= i < |xs| && xs[i] == x;
        assert Lift(xs)[i] == Int(x);
      }
    }
  }

  /** A report of a single id is that id alone. */
  lemma ReportsSingle(completed: seq<JsNumber>, x: int)
    requires Reports(completed, {x})
    ensures completed == [Int(x)]
  {
    assert completed[0] in completed;
    assert completed[0] == Int(completed[0].value);
  }

  /**
   * A run of the service: create a task, register a user, complete the task twice
   * (points are awarded once).
   */
  method CompletionScenario() {
    var db := new PointsDb();
    var created := db.CreateTask(Some("Follow @x"), Some("https://x.com/x"), Some(10));
    assert created == Respond(201, TaskCreated(Task(1, "Follow @x", "https://x.com/x", 10, true)));
    var registered := db.RegisterUser(Some("0xABC"), Some("https://x.com/abc"));
    assert registered == Respond(201, Registered(1, "0xABC", "https://x.com/abc", 0));
    var first := db.CompleteTask(Some(1), Some(1), Some(10));
    assert db.CompletedBy(1) == {1};
    ReportsSingle(first.body.completedTasks, 1);
    assert first.body.points == 10 && first.body.completedTasks == [Int(1)];
    var second := db.CompleteTask(Some(1), Some(1), Some(10));
    assert db.CompletedBy(1) == {1};
    ReportsSingle(second.body.completedTasks, 1);
    assert second.body.points == 10 && second.body.completedTasks == [Int(1)];
    assert db.userTasks == {(1, 1)};
  }

  /** A run of the boost endpoint: two boosts at the same instant both succeed. */
  method BoostScenario() {
    var db := new PointsDb();
    var registered := db.RegisterUser(Some("0xABC"), Some("https://x.com/abc"));
    assert registered == Respond(201, Registered(1, "0xABC", "https://x.com/abc", 0));
    var boosted := db.Boost(Some(1), 100);
    assert boosted == Respond(200, Boosted(1, Some(100)));
    boosted := db.Boost(Some(1), 100);
    assert boosted == Respond(200, Boosted(2, Some(100)));
  }
}

/** The `/tasks` router: list by status, assignee and wedding, fetch,
    create under an existing wedding, update with the user references
    checked, and delete. */
module Tasks {
  import opened Js
  import opened Entities
  import opened Http
  import opened Db
  import opened Utils
  import opened Routes
  import opened RequireAuth
  import opened RequireRole

  // ---------------------------------------------------------------------------
  // GET /tasks

  /** `where.currentStatus`, `where.assignedToId` and `where.weddingId`, each
      set only when its query parameter is truthy. */
  datatype TaskWhere = TaskWhere(status: Option<string>, assignedTo: Option<string>,
                                 weddingId: Option<string>)

  function TaskWhereOf(q: Obj): Result<TaskWhere, Failure> {
    var status := FilterArg(Get(q, "status"));
    var assignedTo := FilterArg(Get(q, "assignedTo"));
    var weddingId := FilterArg(Get(q, "weddingId"));
    if status.Err? then Err(status.error)
    else if assignedTo.Err? then Err(assignedTo.error)
    else if weddingId.Err? then Err(weddingId.error)
    else Ok(TaskWhere(status.value, assignedTo.value, weddingId.value))
  }

  /** Every filter is an exact match. */
  predicate TaskMatches(w: TaskWhere, t: Task) {
    && (w.status.Some? ==> t.currentStatus == Str(w.status.value))
    && (w.assignedTo.Some? ==> t.assignedToId == Some(w.assignedTo.value))
    && (w.weddingId.Some? ==> t.weddingId == w.weddingId.value)
  }

  function TaskFilter(w: TaskWhere): Task -> bool {
    t => TaskMatches(w, t)
  }

  /** `orderBy: { dueDate: 'asc' }` */
  const ByDueDate: (Task, Task) -> bool := (a: Task, b: Task) => a.dueDate <= b.dueDate

  lemma ByDueDateIsOrder()
    ensures TotalPreorder(ByDueDate)
  {
  }

  /** Filtering by assignee never lists an unassigned task, and filtering by
      wedding lists only that wedding's tasks. */
  lemma FiltersAreExact(w: TaskWhere, t: Task)
    requires TaskMatches(w, t)
    ensures w.assignedTo.Some? ==> t.assignedToId.Some? && t.assignedToId.value == w.assignedTo.value
    ensures w.weddingId.Some? ==> t.weddingId == w.weddingId.value
    ensures w.status.Some? ==> t.currentStatus.Str? && t.currentStatus.s == w.status.value
  {
  }

  /** A falsy parameter filters nothing: `?status=` lists the same tasks as
      no `status` at all. */
  lemma EmptyFilterIgnored(q: Obj, key: string)
    requires key in q && q[key] == Str("")
    requires TaskWhereOf(q).Ok?
    ensures TaskWhereOf(q) == TaskWhereOf(q - {key})
  {
  }

  method List(db: Store, req: Request) returns (reply: Reply)
    ensures var q := req.Query();
      && (TaskWhereOf(q).Err? || PageOf(q).Err? ==> reply == ServerError)
      && (TaskWhereOf(q).Ok? && PageOf(q).Ok? ==>
            ListedAs(reply, db.tasks, TaskFilter(TaskWhereOf(q).value), ByDueDate, PageOf(q).value, TaskRow))
  {
    var q := req.Query();
    var where := TaskWhereOf(q);
    var page := PageOf(q);
    if where.Err? || page.Err? {
      return ServerError;
    }
    ByDueDateIsOrder();
    reply := ListRows(db.tasks, TaskFilter(where.value), ByDueDate, page.value, TaskRow);
  }

  // ---------------------------------------------------------------------------
  // GET /tasks/:id

  method Show(db: Store, id: Id) returns (reply: Reply)
    ensures id in db.tasks ==> reply == Json(200, RowBody(TaskRow(id, db.tasks[id])))
    ensures id !in db.tasks ==> reply == Json(404, ErrorBody("Task not found"))
  {
    if id !in db.tasks {
      return Json(404, ErrorBody("Task not found"));
    }
    reply := Json(200, RowBody(TaskRow(id, db.tasks[id])));
  }

  // ---------------------------------------------------------------------------
  // POST /tasks

  const MissingFields: Reply := Json(400, ErrorBody("Missing required fields"))

  /** A create needs a truthy name, due date and wedding, and a priority
      that is present (it may be falsy, such as 0). */
  predicate HasRequired(body: Obj) {
    && Truthy(Get(body, "name")) && "priority" in body
    && Truthy(Get(body, "dueDate")) && Truthy(Get(body, "weddingId"))
  }

  /** The one check a create makes: the wedding. */
  function CreateRefs(body: Obj): seq<Ref> {
    RefIfTruthy(body, "weddingId", "wedding")
  }

  /** The row `prisma.task.create` stores: the name trimmed, `parseInt` of
      the priority, `new Date` of the due date, the wedding; the schema's
      defaults for the rest. */
  function NewTask(env: Env, body: Obj, now: int): (r: Result<Task, Failure>)
    ensures r.Err? ==> r.error == Uncoded
  {
    var name := TrimOf(Get(body, "name"));
    var priority := if "priority" in body then AsInt(ParseIntJs(body["priority"])) else Err(Uncoded);
    var dueDate := if "dueDate" in body then AsTime(NewDate(env, body["dueDate"])) else Err(Uncoded);
    var weddingId := if "weddingId" in body && body["weddingId"].Str? then Ok(body["weddingId"].s) else Err(Uncoded);
    if name.Err? || priority.Err? || dueDate.Err? || weddingId.Err? then Err(Uncoded)
    else Ok(Task(name.value, priority.value, dueDate.value, weddingId.value, None, Null, None, None, Null, now))
  }

  /** Once the wedding check passes, the store refuses a create exactly
      when the name is not a string, the priority parses to NaN or the due
      date is invalid; otherwise the new task belongs to an existing wedding,
      is unassigned and not completed. */
  lemma CheckedCreate(db: Store, env: Env, body: Obj, now: int)
    requires HasRequired(body) && CheckAll(db, CreateRefs(body)).Exists?
    ensures NewTask(env, body, now).Ok? <==>
      && body["name"].Str? && ParseIntValue(body["priority"]).Some? && DateOf(env, body["dueDate"]).Some?
    ensures NewTask(env, body, now).Ok? ==>
      var t := NewTask(env, body, now).value;
      && TaskRefsOk(t, db.weddings, db.users)
      && t.name == Trim(body["name"].s)
      && Some(t.priority) == ParseIntValue(body["priority"])
      && Some(t.dueDate) == DateOf(env, body["dueDate"])
      && t.assignedToId.None? && t.completedOn.None? && t.completedById.None?
      && t.createdAt == now
  {
    TruthyRefChecked(db, body, "weddingId", "wedding");
  }

  /** The columns the create reply selects. */
  const CreatedView: set<string> := {"id", "name", "priority", "dueDate"}

  method Create(db: Store, req: Request, env: Env, newId: Id, now: int) returns (reply: Reply)
    requires newId !in db.tasks
    modifies db, req
    ensures db.users == old(db.users) && db.clients == old(db.clients) && db.addresses == old(db.addresses)
    ensures db.vendors == old(db.vendors) && db.weddings == old(db.weddings)
    ensures old(db.RefsIntact()) ==> db.RefsIntact()
    ensures match Authenticate(req.authorization, req.cookieToken, env)
      case Rejected(r) => reply == r && db.tasks == old(db.tasks)
      case Authenticated(_) =>
        var body := old(req.body);
        var checked := old(CheckAll(db, CreateRefs(body)));
        if !HasRequired(body) then
          reply == MissingFields && db.tasks == old(db.tasks)
        else if !checked.Exists? then
          reply == Refused(checked) && db.tasks == old(db.tasks)
        else match NewTask(env, body, now)
          case Err(_) => reply == ServerError && db.tasks == old(db.tasks)
          case Ok(t) =>
            db.tasks == old(db.tasks)[newId := t] && reply == Json(201, RowBody(Select(TaskRow(newId, t), CreatedView)))
  {
    var step := RequireAuth.RequireAuth(req, env);
    if step.Halt? {
      return step.reply;
    }
    var body := req.body;
    if !HasRequired(body) {
      return MissingFields;
    }
    var checked := CheckAll(db, CreateRefs(body));
    if !checked.Exists? {
      return Refused(checked);
    }
    var data := NewTask(env, body, now);
    if data.Err? {
      return HandlePrismaError(data.error);
    }
    CheckedCreate(db, env, body, now);
    db.PutTask(newId, data.value);
    reply := Json(201, RowBody(Select(TaskRow(newId, data.value), CreatedView)));
  }

  // ---------------------------------------------------------------------------
  // PUT /tasks/:id

  /** The update object: the name trimmed, `parseInt` of the priority,
      `new Date` of the due date, `completedOn` as a date when truthy and
      null otherwise, every other field as given. */
  datatype TaskPatch = TaskPatch(name: Option<string>, priority: Option<Value>, dueDate: Option<Value>,
                                 assignedToId: Option<Value>, currentStatus: Option<Value>,
                                 completedOn: Option<Value>, completedById: Option<Value>,
                                 notes: Option<Value>)

  /** Building the update object throws only on `.trim()` of a name that
      is not a string. */
  function TaskChanges(env: Env, body: Obj): (r: Result<TaskPatch, Failure>)
    ensures r.Ok? <==> ("name" in body ==> body["name"].Str?)
    ensures r.Err? ==> r.error == Uncoded
    ensures r.Ok? ==> (r.value.completedOn.Some? <==> "completedOn" in body)
  {
    var name := if "name" in body then TrimOf(Get(body, "name")) else Ok("");
    if name.Err? then Err(name.error)
    else Ok(TaskPatch(
      if "name" in body then Some(name.value) else None,
      if "priority" in body then Some(ParseIntJs(body["priority"])) else None,
      if "dueDate" in body then Some(NewDate(env, body["dueDate"])) else None,
      Get(body, "assignedToId"),
      Get(body, "currentStatus"),
      if "completedOn" in body then
        Some(if Truthy(Some(body["completedOn"])) then NewDate(env, body["completedOn"]) else Null)
      else None,
      Get(body, "completedById"),
      Get(body, "notes")))
  }

  /** A nullable date column: null clears it, a valid date sets it. */
  function AsOptionalTime(v: Value): Result<Option<int>, Failure> {
    if v.Null? then Ok(None)
    else
      var t := AsTime(v);
      if t.Err? then Err(t.error) else Ok(Some(t.value))
  }

  /** The store accepts the update object: an integer priority, valid
      dates, and user references that are null or strings. */
  predicate PatchAccepted(p: TaskPatch) {
    && (p.priority.Some? ==> AsInt(p.priority.value).Ok?)
    && (p.dueDate.Some? ==> AsTime(p.dueDate.value).Ok?)
    && (p.assignedToId.Some? ==> AsRef(p.assignedToId.value).Ok?)
    && (p.completedOn.Some? ==> AsOptionalTime(p.completedOn.value).Ok?)
    && (p.completedById.Some? ==> AsRef(p.completedById.value).Ok?)
  }

  function Patched(t: Task, p: TaskPatch): Task
    requires PatchAccepted(p)
  {
    Task(
      if p.name.Some? then p.name.value else t.name,
      if p.priority.Some? then AsInt(p.priority.value).value else t.priority,
      if p.dueDate.Some? then AsTime(p.dueDate.value).value else t.dueDate,
      t.weddingId,
      if p.assignedToId.Some? then AsRef(p.assignedToId.value).value else t.assignedToId,
      if p.currentStatus.Some? then p.currentStatus.value else t.currentStatus,
      if p.completedOn.Some? then AsOptionalTime(p.completedOn.value).value else t.completedOn,
      if p.completedById.Some? then AsRef(p.completedById.value).value else t.completedById,
      if p.notes.Some? then p.notes.value else t.notes,
      t.createdAt)
  }

  lemma PatchIdempotent(t: Task, p: TaskPatch)
    requires PatchAccepted(p)
    ensures Patched(Patched(t, p), p) == Patched(t, p)
  {
  }

  /** A column the body does not mention keeps its value, and the wedding
      a task belongs to never changes. A falsy `completedOn` clears the
      completion date; a truthy one sets it to that date. */
  lemma PatchTouchesOnlySupplied(env: Env, t: Task, body: Obj)
    requires TaskChanges(env, body).Ok? && PatchAccepted(TaskChanges(env, body).value)
    ensures var d := Patched(t, TaskChanges(env, body).value);
      && ("name" !in body ==> d.name == t.name)
      && ("priority" !in body ==> d.priority == t.priority)
      && ("dueDate" !in body ==> d.dueDate == t.dueDate)
      && ("assignedToId" !in body ==> d.assignedToId == t.assignedToId)
      && ("currentStatus" !in body ==> d.currentStatus == t.currentStatus)
      && ("completedOn" !in body ==> d.completedOn == t.completedOn)
      && ("completedById" !in body ==> d.completedById == t.completedById)
      && ("notes" !in body ==> d.notes == t.notes)
      && d.weddingId == t.weddingId && d.createdAt == t.createdAt
      && ("completedOn" in body && !Truthy(Some(body["completedOn"])) ==> d.completedOn.None?)
      && ("completedOn" in body && Truthy(Some(body["completedOn"])) ==>
            d.completedOn == DateOf(env, body["completedOn"]))
  {
    var p := TaskChanges(env, body).value;
    TaskChangesFields(env, body);
    if "completedOn" in body && Truthy(Some(body["completedOn"])) {
      assert p.completedOn == Some(NewDate(env, body["completedOn"]));
    }
  }

  /** The checks an update makes, in order: the assignee, then the user
      recorded as completing it, each when given and not null. */
  function UpdateRefs(body: Obj): seq<Ref> {
    RefIfGiven(body, "assignedToId", "user") + RefIfGiven(body, "completedById", "user")
  }

  /** The store refuses an update object exactly when the priority parses
      to NaN or a date is invalid; the user references are checked before
      it gets there. */
  lemma AcceptedPatch(db: Store, env: Env, body: Obj)
    requires TaskChanges(env, body).Ok? && CheckAll(db, UpdateRefs(body)).Exists?
    ensures PatchAccepted(TaskChanges(env, body).value) <==>
      && ("priority" in body ==> ParseIntValue(body["priority"]).Some?)
      && ("dueDate" in body ==> DateOf(env, body["dueDate"]).Some?)
      && ("completedOn" in body && Truthy(Some(body["completedOn"])) ==> DateOf(env, body["completedOn"]).Some?)
  {
    TaskChangesFields(env, body);
    CheckedUserRefs(db, body);
  }

  /** The columns of the update object the store reads. */
  lemma TaskChangesFields(env: Env, body: Obj)
    requires TaskChanges(env, body).Ok?
    ensures var p := TaskChanges(env, body).value;
      && p.name == (if "name" in body then Some(Trim(body["name"].s)) else None)
      && p.currentStatus == Get(body, "currentStatus") && p.notes == Get(body, "notes")
      && p.priority == (if "priority" in body then Some(ParseIntJs(body["priority"])) else None)
      && p.dueDate == (if "dueDate" in body then Some(NewDate(env, body["dueDate"])) else None)
      && p.assignedToId == Get(body, "assignedToId")
      && p.completedById == Get(body, "completedById")
      && p.completedOn == (if "completedOn" in body then
                             Some(if Truthy(Some(body["completedOn"])) then NewDate(env, body["completedOn"]) else Null)
                           else None)
  {
  }

  /** Each user reference the update gives, not null, names an existing
      user once the checks pass. */
  lemma CheckedUserRefs(db: Store, body: Obj)
    requires CheckAll(db, UpdateRefs(body)).Exists?
    ensures "assignedToId" in body && !body["assignedToId"].Null? ==>
      body["assignedToId"].Str? && body["assignedToId"].s in db.users
    ensures "completedById" in body && !body["completedById"].Null? ==>
      body["completedById"].Str? && body["completedById"].s in db.users
  {
    var a := RefIfGiven(body, "assignedToId", "user");
    var b := RefIfGiven(body, "completedById", "user");
    CheckAllAppend(db, a, b);
    if "assignedToId" in body && !body["assignedToId"].Null? { GivenRefChecked(db, body, "assignedToId", "user"); }
    if "completedById" in body && !body["completedById"].Null? { GivenRefChecked(db, body, "completedById", "user"); }
  }

  /** An update that passes its checks keeps the references of that task intact. */
  lemma UpdatedTaskRefs(db: Store, env: Env, t: Task, body: Obj)
    requires TaskChanges(env, body).Ok? && CheckAll(db, UpdateRefs(body)).Exists?
    requires PatchAccepted(TaskChanges(env, body).value) && TaskRefsOk(t, db.weddings, db.users)
    ensures TaskRefsOk(Patched(t, TaskChanges(env, body).value), db.weddings, db.users)
  {
    var p := TaskChanges(env, body).value;
    var d := Patched(t, p);
    TaskChangesFields(env, body);
    CheckedUserRefs(db, body);
    assert d.weddingId == t.weddingId;
    if "assignedToId" in body {
      assert d.assignedToId == AsRef(body["assignedToId"]).value;
    }
    if "completedById" in body {
      assert d.completedById == AsRef(body["completedById"]).value;
    }
  }

  method Update(db: Store, req: Request, env: Env, id: Id) returns (reply: Reply)
    modifies db, req
    ensures db.users == old(db.users) && db.clients == old(db.clients) && db.addresses == old(db.addresses)
    ensures db.vendors == old(db.vendors) && db.weddings == old(db.weddings)
    ensures old(db.RefsIntact()) ==> db.RefsIntact()
    ensures match Authenticate(req.authorization, req.cookieToken, env)
      case Rejected(r) => reply == r && db.tasks == old(db.tasks)
      case Authenticated(_) =>
        var body := old(req.body);
        var checked := old(CheckAll(db, UpdateRefs(body)));
        match TaskChanges(env, body)
        case Err(_) => reply == ServerError && db.tasks == old(db.tasks)
        case Ok(p) =>
          if !checked.Exists? then reply == Refused(checked) && db.tasks == old(db.tasks)
          else if !PatchAccepted(p) then reply == ServerError && db.tasks == old(db.tasks)
          else if id !in old(db.tasks) then reply == NotFound && db.tasks == old(db.tasks)
          else
            var t := Patched(old(db.tasks)[id], p);
            db.tasks == old(db.tasks)[id := t] && reply == Json(200, RowBody(TaskRow(id, t)))
  {
    var step := RequireAuth.RequireAuth(req, env);
    if step.Halt? {
      return step.reply;
    }
    var body := req.body;
    var changes := TaskChanges(env, body);
    if changes.Err? {
      return HandlePrismaError(changes.error);
    }
    var checked := CheckAll(db, UpdateRefs(body));
    if !checked.Exists? {
      return Refused(checked);
    }
    if !PatchAccepted(changes.value) {
      return HandlePrismaError(Uncoded);
    }
    if id !in db.tasks {
      return HandlePrismaError(RecordMissing);
    }
    var t := Patched(db.tasks[id], changes.value);
    if db.RefsIntact() {
      UpdatedTaskRefs(db, env, db.tasks[id], body);
    }
    db.PutTask(id, t);
    reply := Json(200, RowBody(TaskRow(id, t)));
  }

  // ---------------------------------------------------------------------------
  // DELETE /tasks/:id

  method Delete(db: Store, req: Request, env: Env, id: Id) returns (reply: Reply)
    modifies db, req
    ensures db.users == old(db.users) && db.clients == old(db.clients) && db.addresses == old(db.addresses)
    ensures db.vendors == old(db.vendors) && db.weddings == old(db.weddings)
    ensures old(db.RefsIntact()) ==> db.RefsIntact()
    ensures match Authenticate(req.authorization, req.cookieToken, env)
      case Rejected(r) => reply == r && db.tasks == old(db.tasks)
      case Authenticated(user) =>
        match Gate(StaffOnly, Some(user))
        case Halt(r) => reply == r && db.tasks == old(db.tasks)
        case Next =>
          if id !in old(db.tasks) then reply == NotFound && db.tasks == old(db.tasks)
          else db.tasks == old(db.tasks) - {id} && reply == Json(200, MessageBody("Task deleted"))
  {
    var step := RequireAuth.RequireAuth(req, env);
    if step.Halt? {
      return step.reply;
    }
    var gate := Gate(StaffOnly, req.user);
    if gate.Halt? {
      return gate.reply;
    }
    if id !in db.tasks {
      return HandlePrismaError(RecordMissing);
    }
    db.tasks := db.tasks - {id};
    reply := Json(200, MessageBody("Task deleted"));
  }
}

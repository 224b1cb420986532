/** Operations on hydrated entities: a Task's `close`, `delete` and `comment`, and the requests an
    Offer's `accept`, `decline` and `counter` are meant to make. Each goes through the client that
    hydrated the entity (its owner). */
module Tasks {
  import opened Errors
  import opened Json
  import opened Endpoints
  import opened Dispatch
  import opened Hydration
  import opened Client

  /** A decoded value used as a path argument: scalars are rendered by `str()`. An array or an
      object would also be rendered by `str()`, as Python's `repr` of the container, which this
      model does not produce; it reports `UnsupportedId` instead. */
  function ArgOf(v: Value): Result<PathArg>
  {
    match v
    case Null => Ok(NoneArg)
    case Bool(b) => Ok(BoolArg(b))
    case Num(n) => Ok(IntArg(n))
    case Str(s) => Ok(StrArg(s))
    case _ => Err(UnsupportedId)
  }

  /** The elements of an id list as path arguments, in order; one container element fails them all. */
  function ArgsOf(xs: seq<Value>): (r: Result<seq<PathArg>>)
    ensures r.Ok? <==> forall i | 0 <= i < |xs| :: ArgOf(xs[i]).Ok?
    ensures r.Ok? ==> |r.value| == |xs| && forall i | 0 <= i < |xs| :: ArgOf(xs[i]) == Ok(r.value[i])
    ensures r.Err? ==> r.error == UnsupportedId
  {
    if xs == [] then Ok([])
    else
      match ArgOf(xs[0])
      case Err(_) => Err(UnsupportedId)
      case Ok(a) =>
        match ArgsOf(xs[1..])
        case Err(err) => Err(err)
        case Ok(rest) => Ok([a] + rest)
  }

  /** `self.id` passed as `request`'s id: a JSON array is a list of path arguments, any other value
      a single one; an entity without an `id` attribute fails before any request. */
  function IdOf<O>(e: Entity<O>): (r: Result<IdParam>)
    ensures "id" !in e.attrs ==> r == Err(MissingAttribute("id"))
    ensures r.Ok? ==> "id" in e.attrs && e.attrs["id"].Raw?
    ensures r.Ok? && e.attrs["id"].value.Arr? ==>
      r.value.List? && |r.value.args| == |e.attrs["id"].value.items|
      && forall i | 0 <= i < |r.value.args| :: ArgOf(e.attrs["id"].value.items[i]) == Ok(r.value.args[i])
    ensures r.Ok? && !e.attrs["id"].value.Arr? ==>
      ArgOf(e.attrs["id"].value).Ok? && r.value == Scalar(ArgOf(e.attrs["id"].value).value)
    ensures "id" in e.attrs && e.attrs["id"].Raw? && !e.attrs["id"].value.Arr? ==>
      (r.Ok? <==> ArgOf(e.attrs["id"].value).Ok?)
    ensures "id" in e.attrs && e.attrs["id"].Raw? && e.attrs["id"].value.Arr? ==>
      (r.Ok? <==> ArgsOf(e.attrs["id"].value.items).Ok?)
    ensures "id" in e.attrs && e.attrs["id"].Nested? ==> r == Err(UnsupportedId)
  {
    if "id" !in e.attrs then Err(MissingAttribute("id"))
    else
      match e.attrs["id"]
      case Nested(_) => Err(UnsupportedId)
      case Raw(Arr(xs)) =>
        (match ArgsOf(xs)
         case Err(err) => Err(err)
         case Ok(args) => Ok(List(args)))
      case Raw(v) =>
        match ArgOf(v)
        case Err(err) => Err(err)
        case Ok(a) => Ok(Scalar(a))
  }

  /** A request addressed by an entity's id: the id is read first, and a failure there makes no call. */
  function EntityRequest<O>(e: Entity<O>, name: string, override: Option<string>, opts: map<string, Value>,
                            auth: string, headers: map<string, string>,
                            server: (seq<Call>, Call) -> Response, sent: seq<Call>): (Result<Value>, seq<Call>)
    requires KeywordOptions(opts)
  {
    match IdOf(e)
    case Err(err) => (Err(err), sent)
    case Ok(id) => RequestSpec(name, id, override, opts, auth, headers, server, sent)
  }

  /** `response["state"] == "closed"`: indexing needs an object holding `state`. */
  function Closed(res: Result<Value>): Result<bool>
  {
    match res
    case Err(e) => Err(e)
    case Ok(v) =>
      match Member(v, "state")
      case None => Err(MalformedResponse)
      case Some(s) => Ok(s == Str("closed"))
  }

  /** Closing reports true exactly when the answer's `state` is the string `closed`, false when it
      is anything else, and fails when there is no `state` to read; request errors pass through. */
  lemma CloseIff(res: Result<Value>)
    ensures Closed(res) == Ok(true) <==> res.Ok? && Member(res.value, "state") == Some(Str("closed"))
    ensures Closed(res) == Ok(false) <==>
      res.Ok? && Member(res.value, "state").Some? && Member(res.value, "state").value != Str("closed")
    ensures Closed(res).Err? <==> res.Err? || Member(res.value, "state").None?
    ensures res.Err? ==> Closed(res) == Err(res.error)
  {
  }

  /** The close request is a POST of `/api/v1/tasks/<id>/close`. */
  lemma CloseCall(a: PathArg, auth: string, headers: map<string, string>)
    ensures Prepare("task_close", Scalar(a), None, map[], auth, headers)
         == Ok(Call("/api/v1/tasks/" + Render(a) + "/close", "post", auth, headers, map[]))
  {
    assert OpNamed("task_close") == Some(TaskClose);
    TablePaths(TaskClose, [Render(a)]);
  }

  /** The delete request is a DELETE of `/api/v1/tasks/<id>`: the override replaces the task
      entry's declared GET. */
  lemma DeleteCall(a: PathArg, auth: string, headers: map<string, string>)
    ensures Prepare("task", Scalar(a), Some("delete"), map[], auth, headers)
         == Ok(Call("/api/v1/tasks/" + Render(a), "delete", auth, headers, map[]))
  {
    assert OpNamed("task") == Some(Task);
    TablePaths(Task, [Render(a)]);
  }

  /** The options `comment` passes: `data={"comment": {"content": text}}`. */
  function CommentOptions(text: Value): map<string, Value>
  {
    map["data" := Obj(map["comment" := Obj(map["content" := text])])]
  }

  /** The comment request is a POST of `/api/v1/tasks/<id>/comments` carrying the text as the
      comment's content. */
  lemma CommentCall(a: PathArg, text: Value, auth: string, headers: map<string, string>)
    ensures Prepare("task_comment", Scalar(a), None, CommentOptions(text), auth, headers)
         == Ok(Call("/api/v1/tasks/" + Render(a) + "/comments", "post", auth, headers, CommentOptions(text)))
  {
    assert OpNamed("task_comment") == Some(TaskComment);
    TablePaths(TaskComment, [Render(a)]);
  }

  /** `task.close()`. */
  method Close(task: Entity<TaskRabbit>, net: Transport) returns (r: Result<bool>)
    requires task.kind == TaskKind
    modifies net
    ensures var (res, sent) := EntityRequest(task, "task_close", None, map[], task.owner.Authorization(),
                                             task.owner.headers, net.server, old(net.sent));
      net.sent == sent && r == Closed(res)
  {
    var id := IdOf(task);
    if id.Err? {
      return Err(id.error);
    }
    var res := task.owner.Request("task_close", id.value, None, map[], net);
    r := Closed(res);
  }

  /** `task.delete()`: the decoded answer is returned as it is. */
  method Delete(task: Entity<TaskRabbit>, net: Transport) returns (r: Result<Value>)
    requires task.kind == TaskKind
    modifies net
    ensures (r, net.sent) == EntityRequest(task, "task", Some("delete"), map[], task.owner.Authorization(),
                                           task.owner.headers, net.server, old(net.sent))
  {
    var id := IdOf(task);
    if id.Err? {
      return Err(id.error);
    }
    r := task.owner.Request("task", id.value, Some("delete"), map[], net);
  }

  /** `task.comment(comment)`: the decoded answer is returned as it is. */
  method Comment(task: Entity<TaskRabbit>, text: Value, net: Transport) returns (r: Result<Value>)
    requires task.kind == TaskKind
    modifies net
    ensures (r, net.sent) == EntityRequest(task, "task_comment", None, CommentOptions(text),
                                           task.owner.Authorization(), task.owner.headers,
                                           net.server, old(net.sent))
  {
    var id := IdOf(task);
    if id.Err? {
      return Err(id.error);
    }
    r := task.owner.Request("task_comment", id.value, None, CommentOptions(text), net);
  }

  // ---------------------------------------------------------------------------------------------
  // Offers

  /** What can be done with an offer on a task. */
  datatype OfferAction = Accept | Decline | Counter(chargePrice: Value, comments: Value)

  /** The request an offer action is meant to make: the endpoint name, the ids `[task_id, id]`,
      and for a counter-offer the data `{"charge_price": ..., "comments": ...}`. */
  function OfferRequest(action: OfferAction, taskId: PathArg, offerId: PathArg): (string, IdParam, map<string, Value>)
  {
    match action
    case Accept => ("offer_accept", List([taskId, offerId]), map[])
    case Decline => ("offer_decline", List([taskId, offerId]), map[])
    case Counter(price, comments) =>
      ("offer_counter", List([taskId, offerId]),
       map["data" := Obj(map["charge_price" := price, "comments" := comments])])
  }

  /** The path segment naming each action. */
  function ActionSegment(action: OfferAction): string
  {
    match action
    case Accept => "/accept"
    case Decline => "/decline"
    case Counter(_, _) => "/counter"
  }

  /** Every offer action is a POST of `/api/v1/tasks/<task>/offers/<offer>/<action>`, with the
      task id first and the offer id second, carrying the action's data. */
  lemma OfferCall(action: OfferAction, taskId: PathArg, offerId: PathArg,
                  auth: string, headers: map<string, string>)
    ensures var (name, id, opts) := OfferRequest(action, taskId, offerId);
      && KeywordOptions(opts)
      && Prepare(name, id, None, opts, auth, headers)
         == Ok(Call("/api/v1/tasks/" + Render(taskId) + "/offers/" + Render(offerId) + ActionSegment(action),
                    "post", auth, headers, opts))
  {
    var (name, id, opts) := OfferRequest(action, taskId, offerId);
    var args := [Render(taskId), Render(offerId)];
    assert PathArgs(id) == args;
    match action
    case Accept =>
      assert OpNamed(name) == Some(OfferAccept);
      TablePaths(OfferAccept, args);
    case Decline =>
      assert OpNamed(name) == Some(OfferDecline);
      TablePaths(OfferDecline, args);
    case Counter(_, _) =>
      assert OpNamed(name) == Some(OfferCounter);
      TablePaths(OfferCounter, args);
  }
}

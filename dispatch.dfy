/** Request dispatch (`TaskRabbit.request` and `TaskRabbit.__request`) with the HTTP transport
    taken out: everything that happens before the call is `Prepare`, everything after it is
    `Complete`, and `Transport` stands for the network. */
module Dispatch {
  import opened Errors
  import opened Json
  import opened Text
  import opened Endpoints

  /** A value given as a path argument; `str.format` renders it with `str()`. */
  datatype PathArg = StrArg(s: string) | IntArg(n: int) | BoolArg(b: bool) | NoneArg

  /** The `id` parameter of `request`: a list of path arguments, or any other single value. */
  datatype IdParam = Scalar(arg: PathArg) | List(args: seq<PathArg>)

  /** The default `id`, a list holding one empty string. */
  const DefaultId := List([StrArg("")])

  /** `str(a)`. */
  function Render(a: PathArg): string
  {
    match a
    case StrArg(s) => s
    case IntArg(n) => IntToDecimal(n)
    case BoolArg(b) => if b then "True" else "False"
    case NoneArg => "None"
  }

  /** `[id] if type(id) != type([]) else id`, then each argument rendered by `str()`. */
  function PathArgs(id: IdParam): (r: seq<string>)
    ensures id.Scalar? ==> r == [Render(id.arg)]
    ensures id.List? ==> |r| == |id.args| && forall i :: 0 <= i < |r| ==> r[i] == Render(id.args[i])
  {
    match id
    case Scalar(a) => [Render(a)]
    case List(xs) => seq(|xs|, i requires 0 <= i < |xs| => Render(xs[i]))
  }

  /** `override_method or end_point.method`: an override that is absent (`False`) or the empty
      string is falsy, and the declared verb is used. */
  function EffectiveVerb(override: Option<string>, declared: string): string
  {
    if override.Some? && override.value != "" then override.value else declared
  }

  /** The verbs `__request` lets through. */
  const Verbs: set<string> := {"get", "post", "delete"}

  /** The statuses `__request` accepts as success. */
  const Accepted: set<int> := {200, 201, 301}

  /** What reaches the network: path, verb, the `OAuth <token>` authorization the access token
      adds, the session headers, and the keyword options passed through unchanged. */
  datatype Call = Call(url: string, verb: string, auth: string, headers: map<string, string>,
                       opts: map<string, Value>)

  /** What comes back: a status, and the body decoded as JSON (None when it is not JSON). */
  datatype Response = Response(status: int, body: Option<Value>)

  /** Keyword options as `**opts` can hold them: a keyword naming a parameter of `request` binds
      that parameter instead. */
  predicate KeywordOptions(opts: map<string, Value>)
  {
    "self" !in opts && "name" !in opts && "id" !in opts && "override_method" !in opts
  }

  /** The body of `request`: look the name up, wrap a scalar id, fill the template, pick the verb. */
  function Resolve(name: string, id: IdParam, override: Option<string>): Result<(string, string)>
  {
    match Lookup(name)
    case None => Err(UnknownEndpoint(name))
    case Some(ep) =>
      match Format(ep.url, PathArgs(id))
      case Err(e) => Err(e)
      case Ok(url) => Ok((url, EffectiveVerb(override, ep.verb)))
  }

  /** `request` up to the network call: `Resolve`, then binding `__request(url, verb, **opts)`
      (an `endpoint` or `method` option clashes), the verb check, and binding the transport call
      `func(url, headers=..., **opts)` (a `headers` option clashes). */
  function Prepare(name: string, id: IdParam, override: Option<string>, opts: map<string, Value>,
                   auth: string, headers: map<string, string>): Result<Call>
    requires KeywordOptions(opts)
  {
    match Resolve(name, id, override)
    case Err(e) => Err(e)
    case Ok((url, verb)) =>
      if "endpoint" in opts || "method" in opts then Err(ArgumentClash)
      else if verb !in Verbs then Err(InvalidMethod(verb))
      else if "headers" in opts then Err(ArgumentClash)
      else Ok(Call(url, verb, auth, headers, opts))
  }

  /** `__request` after the network call: the status check, then decoding. */
  function Complete(resp: Response): (r: Result<Value>)
  {
    if resp.status !in Accepted then Err(UnexpectedStatus(resp.status))
    else if resp.body.None? then Err(MalformedResponse)
    else Ok(resp.body.value)
  }

  /** A whole request against a server that answers each call given the calls before it: the
      result, and the calls made so far. */
  function RequestSpec(name: string, id: IdParam, override: Option<string>, opts: map<string, Value>,
                       auth: string, headers: map<string, string>,
                       server: (seq<Call>, Call) -> Response, sent: seq<Call>): (Result<Value>, seq<Call>)
    requires KeywordOptions(opts)
  {
    match Prepare(name, id, override, opts, auth, headers)
    case Err(e) => (Err(e), sent)
    case Ok(call) => (Complete(server(sent, call)), sent + [call])
  }

  /** The network: it records each call and answers with what the server makes of it. */
  class Transport {
    const server: (seq<Call>, Call) -> Response
    var sent: seq<Call>

    constructor (server: (seq<Call>, Call) -> Response)
      ensures this.server == server && sent == []
    {
      this.server := server;
      sent := [];
    }

    /** `getattr(access_token, verb)(url, headers=..., **opts)`. */
    method Send(call: Call) returns (resp: Response)
      modifies this
      ensures sent == old(sent) + [call]
      ensures resp == server(old(sent), call)
    {
      resp := server(sent, call);
      sent := sent + [call];
    }
  }

  // ---------------------------------------------------------------------------------------------
  // Properties of dispatch

  /** A call is prepared exactly when the name is registered, the id supplies every placeholder,
      no option clashes with a parameter, and the effective verb is get, post or delete. The call
      then goes to the wire path of that entry, with that verb and the options unchanged. */
  lemma PrepareOkIff(name: string, id: IdParam, override: Option<string>,
                     opts: map<string, Value>, auth: string,
                     headers: map<string, string>)
    requires KeywordOptions(opts)
    ensures Prepare(name, id, override, opts, auth, headers).Ok? <==>
      && OpNamed(name).Some?
      && Needs(OpNamed(name).value) <= |PathArgs(id)|
      && "endpoint" !in opts && "method" !in opts && "headers" !in opts
      && EffectiveVerb(override, EndpointOf(OpNamed(name).value).verb) in Verbs
    ensures Prepare(name, id, override, opts, auth, headers).Ok? ==>
      var op := OpNamed(name).value;
      var call := Prepare(name, id, override, opts, auth, headers).value;
      && call.url == WirePath(op, PathArgs(id))
      && call.verb == EffectiveVerb(override, EndpointOf(op).verb)
      && call.verb in Verbs
      && call.auth == auth && call.headers == headers && call.opts == opts
  {
    if OpNamed(name).Some? {
      TablePaths(OpNamed(name).value, PathArgs(id));
    }
  }

  /** The errors, in the order the source raises them: an unknown name before anything else, a
      missing path argument before the verb is looked at, an invalid verb before any call. */
  lemma PrepareErrors(name: string, id: IdParam, override: Option<string>,
                      opts: map<string, Value>, auth: string,
                      headers: map<string, string>)
    requires KeywordOptions(opts)
    ensures OpNamed(name).None? ==>
      Prepare(name, id, override, opts, auth, headers) == Err(UnknownEndpoint(name))
    ensures OpNamed(name).Some? && |PathArgs(id)| < Needs(OpNamed(name).value) ==>
      Prepare(name, id, override, opts, auth, headers)
        == Err(MalformedPathArguments(|PathArgs(id)|, |PathArgs(id)|))
    ensures (&& OpNamed(name).Some? && Needs(OpNamed(name).value) <= |PathArgs(id)|
             && "endpoint" !in opts && "method" !in opts
             && EffectiveVerb(override, EndpointOf(OpNamed(name).value).verb) !in Verbs) ==>
      Prepare(name, id, override, opts, auth, headers)
        == Err(InvalidMethod(EffectiveVerb(override, EndpointOf(OpNamed(name).value).verb)))
  {
    if OpNamed(name).Some? {
      TablePaths(OpNamed(name).value, PathArgs(id));
    }
  }

  /** A single id and the one-element list holding it dispatch identically. */
  lemma ScalarIsWrapped(name: string, a: PathArg, override: Option<string>,
                        opts: map<string, Value>, auth: string, headers: map<string, string>)
    requires KeywordOptions(opts)
    ensures Prepare(name, Scalar(a), override, opts, auth, headers)
         == Prepare(name, List([a]), override, opts, auth, headers)
  {
    assert PathArgs(Scalar(a)) == PathArgs(List([a]));
  }

  /** A task id given as a string, as a one-element list or as an integer goes to
      `/api/v1/tasks/<id>` (so `request("task", "42")` and `request("task", ["42"])` both reach
      `/api/v1/tasks/42`); the default id goes to `/api/v1/tasks/`. */
  lemma TaskPaths(s: string, n: int, auth: string, headers: map<string, string>)
    ensures Prepare("task", Scalar(StrArg(s)), None, map[], auth, headers)
         == Ok(Call("/api/v1/tasks/" + s, "get", auth, headers, map[]))
    ensures Prepare("task", List([StrArg(s)]), None, map[], auth, headers)
         == Ok(Call("/api/v1/tasks/" + s, "get", auth, headers, map[]))
    ensures Prepare("task", Scalar(IntArg(n)), None, map[], auth, headers)
         == Ok(Call("/api/v1/tasks/" + IntToDecimal(n), "get", auth, headers, map[]))
    ensures Prepare("task", DefaultId, None, map[], auth, headers)
         == Ok(Call("/api/v1/tasks/", "get", auth, headers, map[]))
  {
    TablePaths(Task, [s]);
    TablePaths(Task, [IntToDecimal(n)]);
    TablePaths(Task, [""]);
    assert PathArgs(List([StrArg(s)])) == [s];
    assert PathArgs(DefaultId) == [""];
    assert "/api/v1/tasks/" + "" == "/api/v1/tasks/";
  }

  /** Distinct numeric task ids reach distinct paths. */
  lemma TaskPathsDistinct(m: nat, n: nat, auth: string, headers: map<string, string>)
    requires m != n
    ensures Prepare("task", Scalar(IntArg(m)), None, map[], auth, headers)
         != Prepare("task", Scalar(IntArg(n)), None, map[], auth, headers)
  {
    var p := "/api/v1/tasks/";
    TablePaths(Task, [IntToDecimal(m)]);
    TablePaths(Task, [IntToDecimal(n)]);
    DecimalRoundTrip(m);
    DecimalRoundTrip(n);
    assert (p + NatToDecimal(m))[|p|..] == NatToDecimal(m);
    assert (p + NatToDecimal(n))[|p|..] == NatToDecimal(n);
  }

  /** The status decides first: any status outside 200, 201 and 301 fails whatever the body;
      an accepted status returns the decoded body unchanged, and only an undecodable body fails. */
  lemma StatusRule(resp: Response)
    ensures Complete(resp).Ok? <==> resp.status in Accepted && resp.body.Some?
    ensures resp.status !in Accepted ==> Complete(resp) == Err(UnexpectedStatus(resp.status))
    ensures Complete(resp).Ok? ==> Some(Complete(resp).value) == resp.body
  {
  }

  /** A request that fails before the network makes no call; one that gets through makes exactly
      one call, the prepared one, and its result depends only on the server's answer to it. */
  lemma CallsMade(name: string, id: IdParam, override: Option<string>,
                  opts: map<string, Value>, auth: string,
                  headers: map<string, string>,
                  server: (seq<Call>, Call) -> Response, sent: seq<Call>)
    requires KeywordOptions(opts)
    ensures var p := Prepare(name, id, override, opts, auth, headers);
      var (r, sent') := RequestSpec(name, id, override, opts, auth, headers, server, sent);
      && (p.Err? ==> r == Err(p.error) && sent' == sent)
      && (p.Ok? ==> sent' == sent + [p.value] && r == Complete(server(sent, p.value)))
  {
  }
}

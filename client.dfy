/** The client object (`TaskRabbit`): its session state, the memoized city table, the listing and
    lookup operations, and task creation. Every network call goes through a `Transport`. */
module Client {
  import opened Errors
  import opened Json
  import opened Text
  import opened Endpoints
  import opened Dispatch
  import opened Hydration

  // ---------------------------------------------------------------------------------------------
  // Listings

  /** Iterating `response["items"]`: an array yields its elements; an empty object or string
      yields nothing; a non-empty object or string yields keys or characters, which cannot be
      unpacked with `**`; anything else, or a missing `items`, is not iterable or indexable. */
  function Items(v: Value): (r: Result<seq<Value>>)
    ensures r.Ok? <==> (Member(v, "items").Some? &&
      var x := Member(v, "items").value; x.Arr? || x == Obj(map[]) || x == Str(""))
    ensures r.Ok? && Member(v, "items").value.Arr? ==> r.value == Member(v, "items").value.items
    ensures r.Ok? && !Member(v, "items").value.Arr? ==> r.value == []
    ensures r.Err? ==> r.error == MalformedResponse
  {
    match Member(v, "items")
    case None => Err(MalformedResponse)
    case Some(Arr(xs)) => Ok(xs)
    case Some(Obj(m)) => if m == map[] then Ok([]) else Err(MalformedResponse)
    case Some(Str(s)) => if s == "" then Ok([]) else Err(MalformedResponse)
    case Some(_) => Err(MalformedResponse)
  }

  /** `map(lambda a: Kind(owner, **a), xs)`: every item hydrated, in order. */
  function HydrateAll<O>(kind: Kind, owner: O, xs: seq<Value>): Result<seq<Entity<O>>>
  {
    if forall i | 0 <= i < |xs| :: Hydrate(kind, owner, xs[i]).Ok? then
      Ok(seq(|xs|, i requires 0 <= i < |xs| => Hydrate(kind, owner, xs[i]).value))
    else Err(MalformedResponse)
  }

  /** A request's result hydrated as one entity. */
  function HydrateResult<O>(kind: Kind, owner: O, res: Result<Value>): Result<Entity<O>>
  {
    match res
    case Err(e) => Err(e)
    case Ok(v) => Hydrate(kind, owner, v)
  }

  /** A request's result read as a listing and hydrated item by item. */
  function Listing<O>(kind: Kind, owner: O, res: Result<Value>): Result<seq<Entity<O>>>
  {
    match res
    case Err(e) => Err(e)
    case Ok(v) =>
      match Items(v)
      case Err(e) => Err(e)
      case Ok(xs) => HydrateAll(kind, owner, xs)
  }

  /** A listing keeps the items' order and number, and each entity is the well-formed
      hydration of the item at its position. */
  lemma ListingShape<O>(kind: Kind, owner: O, v: Value)
    requires Listing(kind, owner, Ok(v)).Ok?
    ensures var es := Listing(kind, owner, Ok(v)).value;
      var xs := Items(v).value;
      && |es| == |xs|
      && forall i | 0 <= i < |es| ::
           es[i].kind == kind && es[i].owner == owner && WellFormed(es[i]) && Flatten(es[i]) == xs[i]
  {
    var xs := Items(v).value;
    forall i | 0 <= i < |xs|
      ensures var e := Hydrate(kind, owner, xs[i]).value;
        e.kind == kind && e.owner == owner && WellFormed(e) && Flatten(e) == xs[i]
    {
      HydrateRoundTrip(kind, owner, xs[i]);
    }
  }

  /** `map(lambda a: Kind(owner, **a), xs)`, one item at a time. */
  method BuildAll<O>(kind: Kind, owner: O, xs: seq<Value>) returns (r: Result<seq<Entity<O>>>)
    ensures r == HydrateAll(kind, owner, xs)
  {
    var out: seq<Entity<O>> := [];
    var i := 0;
    while i < |xs|
      invariant 0 <= i <= |xs|
      invariant forall j | 0 <= j < i :: Hydrate(kind, owner, xs[j]).Ok?
      invariant |out| == i
      invariant forall j | 0 <= j < i :: out[j] == Hydrate(kind, owner, xs[j]).value
    {
      var e := Build(kind, owner, xs[i]);
      if e.Err? {
        assert !Hydrate(kind, owner, xs[i]).Ok?;
        return Err(MalformedResponse);
      }
      out := out + [e.value];
      i := i + 1;
    }
    assert out == seq(|xs|, i requires 0 <= i < |xs| => Hydrate(kind, owner, xs[i]).value);
    r := Ok(out);
  }

  // ---------------------------------------------------------------------------------------------
  // The city table

  /** `(i.name.lower(), i.id)` for one city: a missing `name` or `id` attribute fails, and so does
      a name that is not a string (it has no `lower`). */
  function CityEntry<O>(c: Entity<O>): Result<(string, Value)>
  {
    if "name" !in c.attrs then Err(MissingAttribute("name"))
    else if !(c.attrs["name"].Raw? && c.attrs["name"].value.Str?) then Err(MissingAttribute("lower"))
    else if "id" !in c.attrs then Err(MissingAttribute("id"))
    else
      var id := match c.attrs["id"] case Raw(v) => v case Nested(n) => Flatten(n);
      Ok((Lower(c.attrs["name"].value.s), id))
  }

  /** City `c` is listed under `key`. */
  predicate Named<O>(c: Entity<O>, key: string)
  {
    CityEntry(c).Ok? && CityEntry(c).value.0 == key
  }

  /** `cs[j]` is the last city of `cs` listed under `key`. */
  predicate LastNamed<O>(cs: seq<Entity<O>>, j: int, key: string)
  {
    0 <= j < |cs| && Named(cs[j], key) && forall j' | j < j' < |cs| :: !Named(cs[j'], key)
  }

  /** `dict(...)` over the cities from position `i` on, starting from the entries in `d`:
      later entries overwrite earlier ones, and the first city that fails stops it. */
  function IndexFrom<O>(cs: seq<Entity<O>>, i: nat, d: map<string, Value>): Result<map<string, Value>>
    requires i <= |cs|
    decreases |cs| - i
  {
    if i == |cs| then Ok(d)
    else
      match CityEntry(cs[i])
      case Err(e) => Err(e)
      case Ok((k, v)) => IndexFrom(cs, i + 1, d[k := v])
  }

  /** `dict((i.name.lower(), i.id) for i in cities)`. */
  function CityIndex<O>(cs: seq<Entity<O>>): Result<map<string, Value>>
  {
    IndexFrom(cs, 0, map[])
  }

  /** `city_dict[city_name.lower()]`; a missing key raises with the lower-cased name. */
  function CityLookup(dict: map<string, Value>, cityName: string): Result<Value>
  {
    if Lower(cityName) in dict then Ok(dict[Lower(cityName)]) else Err(UnknownCity(Lower(cityName)))
  }

  /** Building the table succeeds exactly when every city yields an entry, and otherwise fails
      with the first failing city's error. A key ends up in the table exactly when it was there
      before or some city is listed under it, and then it maps to the id of the last such city. */
  lemma {:induction false} IndexFromSpec<O>(cs: seq<Entity<O>>, i: nat, d: map<string, Value>, key: string)
    requires i <= |cs|
    ensures IndexFrom(cs, i, d).Ok? <==> forall j | i <= j < |cs| :: CityEntry(cs[j]).Ok?
    ensures IndexFrom(cs, i, d).Err? ==>
      exists j | i <= j < |cs| ::
        && CityEntry(cs[j]).Err? && IndexFrom(cs, i, d).error == CityEntry(cs[j]).error
        && forall j' | i <= j' < j :: CityEntry(cs[j']).Ok?
    ensures IndexFrom(cs, i, d).Ok? ==>
      var m := IndexFrom(cs, i, d).value;
      && (key in m <==> key in d || exists j | i <= j < |cs| :: Named(cs[j], key))
      && (key in m ==>
            || (exists j | i <= j < |cs| :: LastNamed(cs, j, key) && m[key] == CityEntry(cs[j]).value.1)
            || ((forall j | i <= j < |cs| :: !Named(cs[j], key)) && key in d && m[key] == d[key]))
    decreases |cs| - i
  {
    if i < |cs| {
      match CityEntry(cs[i])
      case Err(e) =>
      case Ok((k, v)) =>
        IndexFromSpec(cs, i + 1, d[k := v], key);
        if IndexFrom(cs, i, d).Ok? && key in IndexFrom(cs, i, d).value && k == key
           && forall j | i + 1 <= j < |cs| :: !Named(cs[j], key)
        {
          assert LastNamed(cs, i, key);
        }
    }
  }

  /** Every key of the table is lower-case. */
  lemma {:induction false} IndexKeysLower<O>(cs: seq<Entity<O>>, i: nat, d: map<string, Value>)
    requires i <= |cs|
    requires forall k | k in d :: IsLower(k)
    ensures IndexFrom(cs, i, d).Ok? ==> forall k | k in IndexFrom(cs, i, d).value :: IsLower(k)
    decreases |cs| - i
  {
    if i < |cs| {
      match CityEntry(cs[i])
      case Err(e) =>
      case Ok((k, v)) =>
        LowerIsLower(cs[i].attrs["name"].value.s);
        IndexKeysLower(cs, i + 1, d[k := v]);
    }
  }

  /** Looking a name up in a table built from a listing: found exactly when some city's name
      equals it ignoring case, and then the id is that of the last such city; otherwise the error
      carries the lower-cased name. The table's keys are all lower-case. */
  lemma CityTableLookup<O>(cs: seq<Entity<O>>, cityName: string)
    requires CityIndex(cs).Ok?
    ensures var r := CityLookup(CityIndex(cs).value, cityName);
      && (r.Ok? <==> exists j | 0 <= j < |cs| :: Named(cs[j], Lower(cityName)))
      && (r.Ok? ==> exists j :: LastNamed(cs, j, Lower(cityName)) && r.value == CityEntry(cs[j]).value.1)
      && (r.Err? ==> r.error == UnknownCity(Lower(cityName)))
    ensures forall k | k in CityIndex(cs).value :: IsLower(k)
  {
    IndexFromSpec(cs, 0, map[], Lower(cityName));
    IndexKeysLower(cs, 0, map[]);
  }

  /** `findCityId(city_name)` from the table `dict` and the calls `sent` made so far: the result,
      the table afterwards, and the calls made. An empty table is filled from the city listing
      first; a failure while filling leaves it unchanged. */
  function CityIdOutcome<O>(owner: O, dict: map<string, Value>, auth: string, headers: map<string, string>,
                            server: (seq<Call>, Call) -> Response, sent: seq<Call>,
                            cityName: string): (Result<Value>, map<string, Value>, seq<Call>)
  {
    if |dict| != 0 then (CityLookup(dict, cityName), dict, sent)
    else
      var (res, sent') := RequestSpec("city", DefaultId, None, map[], auth, headers, server, sent);
      match Listing(CityKind, owner, res)
      case Err(e) => (Err(e), dict, sent')
      case Ok(cs) =>
        match CityIndex(cs)
        case Err(e) => (Err(e), dict, sent')
        case Ok(d) => (CityLookup(d, cityName), d, sent')
  }

  /** The call that lists the cities: a GET of `/api/v1/cities/`. */
  lemma CityListingCall(auth: string, headers: map<string, string>)
    ensures Prepare("city", DefaultId, None, map[], auth, headers)
         == Ok(Call("/api/v1/cities/", "get", auth, headers, map[]))
  {
    TablePaths(City, [""]);
    assert PathArgs(DefaultId) == [""];
    assert "/api/v1/cities/" + "" == "/api/v1/cities/";
  }

  /** A non-empty table is consulted as it is: no call is made and the table does not change. */
  lemma MemoReused<O>(owner: O, dict: map<string, Value>, auth: string, headers: map<string, string>,
                      server: (seq<Call>, Call) -> Response, sent: seq<Call>, cityName: string)
    requires |dict| != 0
    ensures var (r, dict', sent') := CityIdOutcome(owner, dict, auth, headers, server, sent, cityName);
      && sent' == sent && dict' == dict
      && (r.Ok? <==> Lower(cityName) in dict)
      && (r.Ok? ==> r.value == dict[Lower(cityName)])
  {
  }

  /** An empty table makes exactly one call, the city listing. When the listing is hydrated and
      indexed, the table becomes that index and the result is the id of the last city whose name
      equals the requested one ignoring case (the requested name's lower-case form being its key);
      otherwise the table stays empty. */
  lemma MemoFilled<O>(owner: O, auth: string, headers: map<string, string>,
                      server: (seq<Call>, Call) -> Response, sent: seq<Call>,
                      cityName: string)
    ensures var (r, dict', sent') := CityIdOutcome(owner, map[], auth, headers, server, sent, cityName);
      var call := Call("/api/v1/cities/", "get", auth, headers, map[]);
      var listing := Listing(CityKind, owner, Complete(server(sent, call)));
      && sent' == sent + [call]
      && (listing.Err? ==> dict' == map[] && r == Err(listing.error))
      && (listing.Ok? && CityIndex(listing.value).Ok? ==>
            && dict' == CityIndex(listing.value).value
            && (forall k | k in dict' :: IsLower(k))
            && (r.Ok? <==> exists j | 0 <= j < |listing.value| :: Named(listing.value[j], Lower(cityName)))
            && (r.Ok? ==> exists j :: LastNamed(listing.value, j, Lower(cityName))
                                     && r.value == CityEntry(listing.value[j]).value.1))
      && (listing.Ok? && CityIndex(listing.value).Err? ==>
            dict' == map[] && r == Err(CityIndex(listing.value).error))
  {
    CityListingCall(auth, headers);
    var call := Call("/api/v1/cities/", "get", auth, headers, map[]);
    var listing := Listing(CityKind, owner, Complete(server(sent, call)));
    if listing.Ok? && CityIndex(listing.value).Ok? {
      CityTableLookup(listing.value, cityName);
    }
  }

  /** Once a lookup leaves a non-empty table, a later lookup of any name makes no call and keeps
      the table: the listing is fetched at most once. */
  lemma NeverRefetched<O>(owner: O, dict: map<string, Value>, auth: string, headers: map<string, string>,
                          server: (seq<Call>, Call) -> Response, sent: seq<Call>, first: string, second: string)
    requires |CityIdOutcome(owner, dict, auth, headers, server, sent, first).1| != 0
    ensures var (_, dict1, sent1) := CityIdOutcome(owner, dict, auth, headers, server, sent, first);
      var (_, dict2, sent2) := CityIdOutcome(owner, dict1, auth, headers, server, sent1, second);
      dict2 == dict1 && sent2 == sent1
  {
  }

  /** A listing with at least one city that indexes fills the table with at least one entry, so a
      table filled from a non-empty listing is never filled again. */
  lemma NonEmptyFill<O>(cs: seq<Entity<O>>)
    requires |cs| > 0 && CityIndex(cs).Ok?
    ensures |CityIndex(cs).value| > 0
  {
    IndexFromSpec(cs, 0, map[], CityEntry(cs[0]).value.0);
    assert Named(cs[0], CityEntry(cs[0]).value.0);
  }

  // ---------------------------------------------------------------------------------------------
  // Task creation

  /** `kwargs.update({"name": ..., "named_price": ..., "city": ...})`. */
  function TaskPayload(kwargs: map<string, Value>, name: Value, price: Value, cityId: Value): map<string, Value>
  {
    kwargs["name" := name]["named_price" := price]["city" := cityId]
  }

  /** The options `createTask` passes: `data={"task": payload}`. */
  function CreateOptions(payload: map<string, Value>): map<string, Value>
  {
    map["data" := Obj(map["task" := Obj(payload)])]
  }

  /** The payload holds the given keyword arguments plus `name`, `named_price` and `city`; those
      three take the given values whatever the keyword arguments held, and every other keyword
      argument is kept unchanged. */
  lemma PayloadOverrides(kwargs: map<string, Value>, name: Value, price: Value, cityId: Value)
    ensures var p := TaskPayload(kwargs, name, price, cityId);
      && p.Keys == kwargs.Keys + {"name", "named_price", "city"}
      && p["name"] == name && p["named_price"] == price && p["city"] == cityId
      && forall k | k in kwargs && k != "name" && k != "named_price" && k != "city" :: p[k] == kwargs[k]
  {
  }

  /** The creation request is a POST to `/api/v1/tasks/` (the `task` template with the id `""`)
      carrying `{"task": payload}` as its data. */
  lemma CreateCall(payload: map<string, Value>, auth: string, headers: map<string, string>)
    ensures Prepare("task", Scalar(StrArg("")), Some("post"), CreateOptions(payload), auth, headers)
         == Ok(Call("/api/v1/tasks/", "post", auth, headers, CreateOptions(payload)))
  {
    TablePaths(Task, [""]);
    assert "/api/v1/tasks/" + "" == "/api/v1/tasks/";
  }

  /** Fetching one entity by id: `request(name, [id])` is a GET of the name's template filled
      with `str(id)`. */
  lemma FindCall(op: Op, a: PathArg, auth: string, headers: map<string, string>)
    requires op == City || op == User || op == Task
    ensures Prepare(Key(op), List([a]), None, map[], auth, headers)
         == Ok(Call(WirePath(op, [Render(a)]), "get", auth, headers, map[]))
  {
    KeysRoundTrip(op, Key(op));
    assert PathArgs(List([a])) == [Render(a)];
    TablePaths(op, [Render(a)]);
  }

  /** `findAccount()` is a GET of `/api/v1/account`, whatever the default id holds. */
  lemma AccountCall(auth: string, headers: map<string, string>)
    ensures Prepare("account", DefaultId, None, map[], auth, headers)
         == Ok(Call("/api/v1/account", "get", auth, headers, map[]))
  {
    assert OpNamed("account") == Some(Account);
    assert PathArgs(DefaultId) == [""];
    TablePaths(Account, [""]);
  }

  // ---------------------------------------------------------------------------------------------
  // The client

  /** A TaskRabbit session: the user's token, the session headers naming the application, and the
      memoized table from lower-cased city names to city ids. */
  class TaskRabbit {
    const userToken: string
    const headers: map<string, string>
    var cityDict: map<string, Value>

    /** `TaskRabbit(user_token)` under the application secret `appSecret`. */
    constructor (userToken: string, appSecret: string)
      ensures this.userToken == userToken
      ensures headers == map["X-Client-Application" := appSecret]
      ensures cityDict == map[]
    {
      this.userToken := userToken;
      headers := map["X-Client-Application" := appSecret];
      cityDict := map[];
    }

    /** The authorization the access token sends, under the header format `OAuth %s`. */
    function Authorization(): string
    {
      "OAuth " + userToken
    }

    /** `request(name, id, override_method, **opts)`. */
    method Request(name: string, id: IdParam, override: Option<string>, opts: map<string, Value>,
                   net: Transport) returns (r: Result<Value>)
      requires KeywordOptions(opts)
      modifies net
      ensures (r, net.sent) == RequestSpec(name, id, override, opts, Authorization(), headers,
                                           net.server, old(net.sent))
    {
      var call := Prepare(name, id, override, opts, Authorization(), headers);
      if call.Err? {
        return Err(call.error);
      }
      var resp := net.Send(call.value);
      r := Complete(resp);
    }

    /** `cities()`. */
    method Cities(net: Transport) returns (r: Result<seq<Entity<TaskRabbit>>>)
      modifies net
      ensures var (res, sent) := RequestSpec("city", DefaultId, None, map[], Authorization(), headers,
                                             net.server, old(net.sent));
        net.sent == sent && r == Listing(CityKind, this, res)
    {
      r := ListOf(CityKind, "city", net);
    }

    /** `findTasks()`. */
    method FindTasks(net: Transport) returns (r: Result<seq<Entity<TaskRabbit>>>)
      modifies net
      ensures var (res, sent) := RequestSpec("task", DefaultId, None, map[], Authorization(), headers,
                                             net.server, old(net.sent));
        net.sent == sent && r == Listing(TaskKind, this, res)
    {
      r := ListOf(TaskKind, "task", net);
    }

    method ListOf(kind: Kind, name: string, net: Transport) returns (r: Result<seq<Entity<TaskRabbit>>>)
      modifies net
      ensures var (res, sent) := RequestSpec(name, DefaultId, None, map[], Authorization(), headers,
                                             net.server, old(net.sent));
        net.sent == sent && r == Listing(kind, this, res)
    {
      var res := Request(name, DefaultId, None, map[], net);
      if res.Err? {
        return Err(res.error);
      }
      var xs := Items(res.value);
      if xs.Err? {
        return Err(xs.error);
      }
      r := BuildAll(kind, this, xs.value);
    }

    /** `findCity(city_id)`. */
    method FindCity(cityId: PathArg, net: Transport) returns (r: Result<Entity<TaskRabbit>>)
      modifies net
      ensures var (res, sent) := RequestSpec("city", List([cityId]), None, map[], Authorization(), headers,
                                             net.server, old(net.sent));
        net.sent == sent && r == HydrateResult(CityKind, this, res)
    {
      r := Fetch(CityKind, "city", List([cityId]), net);
    }

    /** `findUser(user_id)`. */
    method FindUser(userId: PathArg, net: Transport) returns (r: Result<Entity<TaskRabbit>>)
      modifies net
      ensures var (res, sent) := RequestSpec("user", List([userId]), None, map[], Authorization(), headers,
                                             net.server, old(net.sent));
        net.sent == sent && r == HydrateResult(UserKind, this, res)
    {
      r := Fetch(UserKind, "user", List([userId]), net);
    }

    /** `findTask(task_id)`. */
    method FindTask(taskId: PathArg, net: Transport) returns (r: Result<Entity<TaskRabbit>>)
      modifies net
      ensures var (res, sent) := RequestSpec("task", List([taskId]), None, map[], Authorization(), headers,
                                             net.server, old(net.sent));
        net.sent == sent && r == HydrateResult(TaskKind, this, res)
    {
      r := Fetch(TaskKind, "task", List([taskId]), net);
    }

    /** `findAccount()`: the account is a User. */
    method FindAccount(net: Transport) returns (r: Result<Entity<TaskRabbit>>)
      modifies net
      ensures var (res, sent) := RequestSpec("account", DefaultId, None, map[], Authorization(), headers,
                                             net.server, old(net.sent));
        net.sent == sent && r == HydrateResult(UserKind, this, res)
    {
      r := Fetch(UserKind, "account", DefaultId, net);
    }

    method Fetch(kind: Kind, name: string, id: IdParam, net: Transport) returns (r: Result<Entity<TaskRabbit>>)
      modifies net
      ensures var (res, sent) := RequestSpec(name, id, None, map[], Authorization(), headers,
                                             net.server, old(net.sent));
        net.sent == sent && r == HydrateResult(kind, this, res)
    {
      var res := Request(name, id, None, map[], net);
      if res.Err? {
        return Err(res.error);
      }
      r := Build(kind, this, res.value);
    }

    /** `findCityId(city_name)`: fill the table from the city listing when it is empty, then look
      the lower-cased name up. */
    method FindCityId(cityName: string, net: Transport) returns (r: Result<Value>)
      modifies this, net
      ensures (r, cityDict, net.sent) == CityIdOutcome(this, old(cityDict), Authorization(), headers,
                                                       net.server, old(net.sent), cityName)
    {
      if |cityDict| == 0 {
        var cs := Cities(net);
        if cs.Err? {
          return Err(cs.error);
        }
        var d: map<string, Value> := map[];
        var i := 0;
        while i < |cs.value|
          invariant 0 <= i <= |cs.value|
          invariant IndexFrom(cs.value, i, d) == CityIndex(cs.value)
        {
          var entry := CityEntry(cs.value[i]);
          if entry.Err? {
            return Err(entry.error);
          }
          d := d[entry.value.0 := entry.value.1];
          i := i + 1;
        }
        cityDict := d;
      }
      r := CityLookup(cityDict, cityName);
    }

    /** `createTask(name, named_price_in_dollars, city, **kwargs)`: resolve the city id, add the
      task's name, price and city to the keyword arguments, and POST them as the task. Keyword
      arguments cannot spell the method's own parameters. */
    method CreateTask(name: Value, price: Value, city: string, kwargs: map<string, Value>, net: Transport)
      returns (r: Result<Entity<TaskRabbit>>)
      requires "self" !in kwargs && "name" !in kwargs && "named_price_in_dollars" !in kwargs && "city" !in kwargs
      modifies this, net
      ensures var (c, dict, sent) := CityIdOutcome(this, old(cityDict), Authorization(), headers,
                                                   net.server, old(net.sent), city);
        && cityDict == dict
        && (c.Err? ==> r == Err(c.error) && net.sent == sent)
        && (c.Ok? ==>
              var (res, sent') := RequestSpec("task", Scalar(StrArg("")), Some("post"),
                                              CreateOptions(TaskPayload(kwargs, name, price, c.value)),
                                              Authorization(), headers, net.server, sent);
              r == HydrateResult(TaskKind, this, res) && net.sent == sent')
    {
      var cityId := FindCityId(city, net);
      if cityId.Err? {
        return Err(cityId.error);
      }
      var payload := kwargs;
      payload := payload["name" := name];
      payload := payload["named_price" := price];
      payload := payload["city" := cityId.value];
      var res := Request("task", Scalar(StrArg("")), Some("post"), CreateOptions(payload), net);
      if res.Err? {
        return Err(res.error);
      }
      r := Build(TaskKind, this, res.value);
    }
  }
}

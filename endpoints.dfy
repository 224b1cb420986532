/** The endpoint registry (`TaskRabbit.ENDPOINTS`) and the positional URL formatting
    (`str.format(*ids)`) that turns a template into a path. */
module Endpoints {
  import opened Errors

  /** A logical operation: a path template and the HTTP verb it is declared with. */
  datatype Endpoint = Endpoint(url: string, verb: string)

  /** The keys of the registry. */
  datatype Op =
    | City | Account | User | Task | TaskClose | TaskComment
    | Offer | OfferAccept | OfferCounter | OfferDecline

  /** The dictionary key of each operation. */
  function Key(op: Op): string
  {
    match op
    case City => "city"
    case Account => "account"
    case User => "user"
    case Task => "task"
    case TaskClose => "task_close"
    case TaskComment => "task_comment"
    case Offer => "offer"
    case OfferAccept => "offer_accept"
    case OfferCounter => "offer_counter"
    case OfferDecline => "offer_decline"
  }

  /** `name in ENDPOINTS`, and which entry it selects. */
  function OpNamed(name: string): Option<Op>
  {
    match name
    case "city" => Some(City)
    case "account" => Some(Account)
    case "user" => Some(User)
    case "task" => Some(Task)
    case "task_close" => Some(TaskClose)
    case "task_comment" => Some(TaskComment)
    case "offer" => Some(Offer)
    case "offer_accept" => Some(OfferAccept)
    case "offer_counter" => Some(OfferCounter)
    case "offer_decline" => Some(OfferDecline)
    case _ => None
  }

  /** The names the registry knows are exactly the keys of its operations, one key per operation. */
  lemma KeysRoundTrip(op: Op, name: string)
    ensures OpNamed(Key(op)) == Some(op)
    ensures OpNamed(name) == Some(op) ==> name == Key(op)
  {
  }

  /** The registry's entries, with the `account` entry as intended (the literal lacks the comma
      after it). Each template is written as the literal text around its placeholders, which keeps
      the proofs about formatting small; `RegistryText` states that each one spells the path
      template of the source. */
  function EndpointOf(op: Op): Endpoint
  {
    match op
    case City => Endpoint("/api/v1/cities/" + "{0}", "get")
    case Account => Endpoint("/api/v1/account", "get")
    case User => Endpoint("/api/v1/users/" + "{0}", "get")
    case Task => Endpoint("/api/v1/tasks/" + "{0}", "get")
    case TaskClose => Endpoint("/api/v1/tasks/" + "{0}" + "/close", "post")
    case TaskComment => Endpoint("/api/v1/tasks/" + "{0}" + "/comments", "post")
    case Offer => Endpoint("/api/v1/tasks/" + "{0}" + "/offers", "get")
    case OfferAccept => Endpoint("/api/v1/tasks/" + "{0}" + "/offers/" + "{1}" + "/accept", "post")
    case OfferCounter => Endpoint("/api/v1/tasks/" + "{0}" + "/offers/" + "{1}" + "/counter", "post")
    case OfferDecline => Endpoint("/api/v1/tasks/" + "{0}" + "/offers/" + "{1}" + "/decline", "post")
  }

  /** The registry as the source writes it: each entry's template and verb, character for character. */
  lemma RegistryText()
    ensures EndpointOf(City) == Endpoint("/api/v1/cities/{0}", "get")
    ensures EndpointOf(Account) == Endpoint("/api/v1/account", "get")
    ensures EndpointOf(User) == Endpoint("/api/v1/users/{0}", "get")
    ensures EndpointOf(Task) == Endpoint("/api/v1/tasks/{0}", "get")
    ensures EndpointOf(TaskClose) == Endpoint("/api/v1/tasks/{0}/close", "post")
    ensures EndpointOf(TaskComment) == Endpoint("/api/v1/tasks/{0}/comments", "post")
    ensures EndpointOf(Offer) == Endpoint("/api/v1/tasks/{0}/offers", "get")
    ensures EndpointOf(OfferAccept) == Endpoint("/api/v1/tasks/{0}/offers/{1}/accept", "post")
    ensures EndpointOf(OfferCounter) == Endpoint("/api/v1/tasks/{0}/offers/{1}/counter", "post")
    ensures EndpointOf(OfferDecline) == Endpoint("/api/v1/tasks/{0}/offers/{1}/decline", "post")
  {
  }

  /** `ENDPOINTS[name]`, or None when `name` is not a key. */
  function Lookup(name: string): Option<Endpoint>
  {
    match OpNamed(name)
    case None => None
    case Some(op) => Some(EndpointOf(op))
  }

  /** The registry answers for exactly its ten names, and for each with that operation's entry. */
  lemma LookupDomain(name: string)
    ensures Lookup(name).Some? <==>
      name in {"city", "account", "user", "task", "task_close", "task_comment",
               "offer", "offer_accept", "offer_counter", "offer_decline"}
    ensures Lookup(name).Some? ==> Lookup(name) == Some(EndpointOf(OpNamed(name).value))
  {
  }

  /** `t` starts with a positional placeholder `{d}`. */
  predicate HoleAt(t: string)
  {
    |t| >= 3 && t[0] == '{' && '0' <= t[1] <= '9' && t[2] == '}'
  }

  function HoleIndex(t: string): nat
    requires HoleAt(t)
  {
    t[1] as int - '0' as int
  }

  /** The number of path arguments `t` needs: one more than its largest placeholder index. */
  function Arity(t: string): nat
    decreases |t|
  {
    if t == [] then 0
    else if HoleAt(t) then
      var rest := Arity(t[3..]);
      if HoleIndex(t) + 1 > rest then HoleIndex(t) + 1 else rest
    else Arity(t[1..])
  }

  function Prepend(p: string, r: Result<string>): Result<string>
  {
    match r
    case Ok(s) => Ok(p + s)
    case Err(e) => Err(e)
  }

  /** `t.format(*args)`: each placeholder `{i}` is replaced by `args[i]`, scanning left to right;
      the first placeholder whose index has no argument fails; arguments are not re-scanned. */
  function Format(t: string, args: seq<string>): Result<string>
    decreases |t|
  {
    if t == [] then Ok([])
    else if HoleAt(t) then
      var i := HoleIndex(t);
      if i < |args| then Prepend(args[i], Format(t[3..], args))
      else Err(MalformedPathArguments(i, |args|))
    else Prepend([t[0]], Format(t[1..], args))
  }

  /** Formatting succeeds exactly when every placeholder has an argument; otherwise the error
      names a placeholder index that is out of range. */
  lemma {:induction false} FormatOkIff(t: string, args: seq<string>)
    ensures Format(t, args).Ok? <==> Arity(t) <= |args|
    ensures Format(t, args).Err? ==>
      Format(t, args).error.MalformedPathArguments?
      && Format(t, args).error.supplied == |args| <= Format(t, args).error.index < Arity(t)
    decreases |t|
  {
    if t != [] {
      if HoleAt(t) {
        FormatOkIff(t[3..], args);
      } else {
        FormatOkIff(t[1..], args);
      }
    }
  }

  /** Arguments beyond those the template uses are ignored. */
  lemma {:induction false} FormatIgnoresExtra(t: string, args: seq<string>, more: seq<string>)
    requires Format(t, args).Ok?
    ensures Format(t, args + more) == Format(t, args)
    decreases |t|
  {
    if t != [] {
      if HoleAt(t) {
        FormatIgnoresExtra(t[3..], args, more);
      } else {
        FormatIgnoresExtra(t[1..], args, more);
      }
    }
  }

  lemma PrependPrepend(p: string, q: string, r: Result<string>)
    ensures Prepend(p, Prepend(q, r)) == Prepend(p + q, r)
  {
    if r.Ok? {
      assert p + (q + r.value) == (p + q) + r.value;
    }
  }

  /** Text without a `{` is copied unchanged in front of whatever follows it. */
  lemma {:induction false} FormatLiteral(p: string, t: string, args: seq<string>)
    requires '{' !in p
    ensures Format(p + t, args) == Prepend(p, Format(t, args))
    decreases |p|
  {
    if p == [] {
      assert p + t == t;
      if Format(t, args).Ok? {
        assert p + Format(t, args).value == Format(t, args).value;
      }
    } else {
      var u := p + t;
      assert u[0] == p[0] && !HoleAt(u);
      assert u[1..] == p[1..] + t;
      FormatLiteral(p[1..], t, args);
      PrependPrepend([p[0]], p[1..], Format(t, args));
      assert [p[0]] + p[1..] == p;
    }
  }

  /** A placeholder `{d}` in front is replaced by the d-th argument, or fails when there is none. */
  lemma FormatHole(d: char, t: string, args: seq<string>)
    requires '0' <= d <= '9'
    ensures var i := d as int - '0' as int;
      Format(['{', d, '}'] + t, args)
        == if i < |args| then Prepend(args[i], Format(t, args)) else Err(MalformedPathArguments(i, |args|))
  {
  }

  /** Text without placeholders formats to itself. */
  lemma FormatTail(s: string, args: seq<string>)
    requires '{' !in s
    ensures Format(s, args) == Ok(s)
  {
    FormatLiteral(s, "", args);
    assert s + "" == s;
  }

  lemma Assoc(x: string, y: string, z: string)
    ensures x + (y + z) == (x + y) + z
  {
  }

  /** One-placeholder templates `p{0}s` yield p + first argument + s, or fail at `{0}` when no
      argument is given. */
  lemma OneSlot(p: string, s: string, args: seq<string>)
    requires '{' !in p && '{' !in s
    ensures Format(p + "{0}" + s, args)
      == if |args| >= 1 then Ok(p + args[0] + s) else Err(MalformedPathArguments(0, 0))
    ensures s == "" ==> p + "{0}" + s == p + "{0}" && (|args| >= 1 ==> p + args[0] + s == p + args[0])
  {
    FormatTail(s, args);
    FormatHole('0', s, args);
    FormatLiteral(p, ['{', '0', '}'] + s, args);
    assert p + "{0}" + s == p + (['{', '0', '}'] + s);
    if |args| >= 1 {
      Assoc(p, args[0], s);
    }
  }

  /** Two-placeholder templates `p{0}q{1}s` yield p + first + q + second + s, or fail at the
      first placeholder without an argument. */
  lemma TwoSlots(p: string, q: string, s: string, args: seq<string>)
    requires '{' !in p && '{' !in q && '{' !in s
    ensures Format(p + "{0}" + q + "{1}" + s, args)
      == if |args| >= 2 then Ok(p + args[0] + q + args[1] + s)
         else Err(MalformedPathArguments(|args|, |args|))
  {
    var t1 := q + (['{', '1', '}'] + s);
    FormatTail(s, args);
    FormatHole('1', s, args);
    FormatLiteral(q, ['{', '1', '}'] + s, args);
    FormatHole('0', t1, args);
    FormatLiteral(p, ['{', '0', '}'] + t1, args);
    assert p + "{0}" + q + "{1}" + s == p + (['{', '0', '}'] + t1);
    if |args| >= 2 {
      var a, b := args[0], args[1];
      Assoc(a, q, b + s);
      Assoc(a + q, b, s);
      Assoc(p, (a + q) + b, s);
      Assoc(p, a + q, b);
      Assoc(p, a, q);
    }
  }

  /** How many path arguments each registered template uses. */
  function Needs(op: Op): nat
  {
    match op
    case Account => 0
    case OfferAccept | OfferCounter | OfferDecline => 2
    case _ => 1
  }

  /** The wire paths of the API, written out per operation: an independent statement of what
      the registry's templates produce. */
  function WirePath(op: Op, args: seq<string>): string
    requires |args| >= Needs(op)
  {
    match op
    case City => "/api/v1/cities/" + args[0]
    case Account => "/api/v1/account"
    case User => "/api/v1/users/" + args[0]
    case Task => "/api/v1/tasks/" + args[0]
    case TaskClose => "/api/v1/tasks/" + args[0] + "/close"
    case TaskComment => "/api/v1/tasks/" + args[0] + "/comments"
    case Offer => "/api/v1/tasks/" + args[0] + "/offers"
    case OfferAccept => "/api/v1/tasks/" + args[0] + "/offers/" + args[1] + "/accept"
    case OfferCounter => "/api/v1/tasks/" + args[0] + "/offers/" + args[1] + "/counter"
    case OfferDecline => "/api/v1/tasks/" + args[0] + "/offers/" + args[1] + "/decline"
  }

  /** Every registered template, given at least the arguments it uses, formats to its wire path,
      ignoring arguments past those; given fewer, formatting fails at the first missing index. */
  lemma TablePaths(op: Op, args: seq<string>)
    ensures Needs(op) <= |args| ==> Format(EndpointOf(op).url, args) == Ok(WirePath(op, args))
    ensures |args| < Needs(op) ==>
      Format(EndpointOf(op).url, args) == Err(MalformedPathArguments(|args|, |args|))
  {
    match op
    case City => OneSlot("/api/v1/cities/", "", args);
    case Account => FormatTail("/api/v1/account", args);
    case User => OneSlot("/api/v1/users/", "", args);
    case Task => OneSlot("/api/v1/tasks/", "", args);
    case TaskClose => OneSlot("/api/v1/tasks/", "/close", args);
    case TaskComment => OneSlot("/api/v1/tasks/", "/comments", args);
    case Offer => OneSlot("/api/v1/tasks/", "/offers", args);
    case OfferAccept => TwoSlots("/api/v1/tasks/", "/offers/", "/accept", args);
    case OfferCounter => TwoSlots("/api/v1/tasks/", "/offers/", "/counter", args);
    case OfferDecline => TwoSlots("/api/v1/tasks/", "/offers/", "/decline", args);
  }
}

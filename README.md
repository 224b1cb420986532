# pyrabbit's TaskRabbit client, modelled in Dafny

`taskrabbit.py` is a small Python 2 client for the TaskRabbit REST API. This project models the
deterministic part of that client, with the HTTP transport and the OAuth machinery taken out:

- **Endpoint registry** (`TaskRabbit.ENDPOINTS`). Ten logical names, each with a path template
  holding positional placeholders `{0}`/`{1}` and a declared verb (`Endpoints`).
- **Request dispatch** (`request` and `__request`). Steps, in order:
  - look the name up;
  - wrap a non-list id into a one-element list;
  - fill the template with `str.format`;
  - pick the override verb or the declared one;
  - reject verbs other than get, post and delete;
  - make the call;
  - accept only statuses 200, 201 and 301;
  - decode the body.

  Each failure the source can raise is an `Error` value, and the errors come in the source's own
  order (`Dispatch`). The network is a `Transport` object. It records every call it is given and
  answers with a server function of the calls made so far. A request is specified by the pure
  function `RequestSpec`, which returns the result and the new call log.
- **Hydration** (`Base.__init__`). A decoded JSON object becomes a City, User or Task entity. The
  values under `city`, `user` and `task` become nested entities of those kinds, recursively, and
  every other value is kept raw. Each entity holds the client that made it (`Hydration`).
  Hydration is proved to be invertible: flattening an entity gives back the object it was made
  from, and hydrating a well-formed entity's flattened form gives back that entity.
- **The client** (`TaskRabbit`). It holds the user's token, the session headers and the memoized
  city table `city_dict`. Its operations:
  - `findCityId` fills the table from the city listing only while the table is empty, then looks
    up the lower-cased name;
  - the listings `cities` and `findTasks`;
  - the lookups `findCity`, `findUser`, `findTask` and `findAccount`;
  - `createTask`, which merges the name, the price and the resolved city id into the keyword
    arguments and POSTs `{"task": payload}` to `/api/v1/tasks/` (`Client`).
- **Entity actions** (`Tasks`). `Task.close`, `Task.delete` and `Task.comment` go through the
  owning client. For offers, the model gives the requests that `accept`, `decline` and `counter`
  are meant to make.

Two behaviours of the code are easy to miss, and the model follows the code:

- `Task.close` indexes `response["state"]` (taskrabbit.py:179). An answer without a `state` key
  therefore raises a KeyError, which is `MalformedResponse` here; it never yields a boolean.
- The city table is refilled whenever it is empty. A listing with no cities leaves it empty, so
  the next `findCityId` fetches the listing again. `NonEmptyFill` and `NeverRefetched` state when
  the listing is fetched only once.

## Model

| member | source | states |
|---|---|---|
| Endpoints.RegistryText | taskrabbit.py:25-36 | each entry's path template and verb are exactly those of the registry literal |
| Endpoints.KeysRoundTrip | taskrabbit.py:25-36 | each registry name selects exactly one operation, and each operation is selected by exactly its own name |
| Endpoints.LookupDomain | taskrabbit.py:81-84 | the registry answers for exactly its ten names, each with that operation's (template, verb) entry |
| Endpoints.FormatOkIff | taskrabbit.py:87 | `template.format(*ids)` succeeds iff there are more ids than the largest placeholder index; a failure names a placeholder index at or beyond the number of ids |
| Endpoints.FormatIgnoresExtra | taskrabbit.py:87 | ids beyond those the template uses do not change the formatted path |
| Endpoints.TablePaths | taskrabbit.py:25-36 | every registered template, filled with enough ids, is its wire path (e.g. `/api/v1/tasks/<a>/offers/<b>/accept`); with too few ids it fails at the first missing index |
| Text.Lower | taskrabbit.py:91-93 | lower-casing keeps the length and folds each character A-Z to a-z |
| Text.LowerIsLower | taskrabbit.py:91-93 | a lower-cased name has no capitals and lower-casing it again changes nothing |
| Text.IntToDecimal | taskrabbit.py:87 | `str(n)` of an integer id is non-empty and starts with `-` exactly when n is negative; for n >= 0 it is the digits of n, and for n < 0 the `-` is followed by the digits of -n |
| Text.DecimalRoundTrip | taskrabbit.py:87 | for every n >= 0, reading back the decimal digits of `str(n)` gives n |
| Text.IntDecimalRoundTrip | taskrabbit.py:87 | for every integer n, reading back `str(n)` (a leading `-` negating the digits after it) gives n, so distinct integer ids render differently |
| Dispatch.PathArgs | taskrabbit.py:85 | a scalar id becomes the one-element list of its `str()`; a list id becomes the `str()` of each element, in order |
| Dispatch.PrepareOkIff | taskrabbit.py:80-87 | a call is prepared iff the name is registered, the id fills every placeholder, no option clashes with a parameter, and the effective verb is get/post/delete; the call then goes to the wire path with that verb, the token's authorization, the session headers and the options unchanged |
| Dispatch.PrepareErrors | taskrabbit.py:69-87 | an unknown name fails with `UnknownEndpoint` before anything else, missing ids fail before the verb is checked, and an invalid verb fails before any call |
| Dispatch.ScalarIsWrapped | taskrabbit.py:85 | a scalar id and the one-element list holding it dispatch identically |
| Dispatch.TaskPaths | taskrabbit.py:85-87 | `request("task", s)` and `request("task", [s])` both reach `/api/v1/tasks/s`, an integer id reaches its decimal form, and the default id `[""]` reaches `/api/v1/tasks/` |
| Dispatch.TaskPathsDistinct | taskrabbit.py:87 | distinct non-negative integer task ids reach distinct paths |
| Dispatch.StatusRule | taskrabbit.py:75-78 | any status other than 200/201/301 fails with that status whatever the body; an accepted status returns the decoded body unchanged and fails only when the body does not decode |
| Dispatch.CallsMade | taskrabbit.py:68-78 | a request failing before the network makes no call; otherwise it makes exactly the prepared call and its result is the server's answer put through the status and decoding checks |
| Dispatch.Transport.Send | taskrabbit.py:72-73 | the call is appended to the log and answered by the server given the calls before it |
| Hydration.HydrateRoundTrip | taskrabbit.py:124-135 | a hydrated entity has the requested kind and owner and is well formed: nested entities are exactly under `city`/`user`/`task`, of those kinds, sharing the owner; flattening it gives back the decoded object |
| Hydration.FlattenRoundTrip | taskrabbit.py:124-135 | hydrating the flattened form of any well-formed entity gives back that entity |
| Hydration.HydrateExample | taskrabbit.py:127-133 | a Task with a `city` object is hydrated with a nested City entity, not a raw mapping |
| Hydration.Build | taskrabbit.py:124-135 | visiting the keys one at a time in any order gives the hydration |
| Client.Items | taskrabbit.py:96 | iterating `response["items"]` yields an array's elements, nothing for an empty object or string, and fails for anything else or a missing `items` |
| Client.ListingShape | taskrabbit.py:96 | a listing has one well-formed entity per item, in order, each flattening back to its item |
| Client.BuildAll | taskrabbit.py:96 | hydrating the items one by one gives the listing |
| Client.IndexFromSpec | taskrabbit.py:91 | the name table builds iff every city has a string name and an id, and otherwise fails with the first failing city's error; a key is present iff some city is listed under it, and it maps to the id of the last such city |
| Client.IndexKeysLower | taskrabbit.py:91 | every key of the city table is lower-case |
| Client.CityTableLookup | taskrabbit.py:91-93 | looking a name up finds an id iff some city's name equals it ignoring case, and that id is the last such city's; otherwise it fails with `UnknownCity` of the lower-cased name |
| Client.CityListingCall | taskrabbit.py:96 | the city listing is a GET of `/api/v1/cities/` |
| Client.MemoReused | taskrabbit.py:90-93 | with a non-empty table, `findCityId` makes no call, keeps the table and finds exactly the names whose lower-case form is a key |
| Client.MemoFilled | taskrabbit.py:90-93 | with an empty table, `findCityId` makes exactly one call (the city listing) and either fills the table with the listing's index and looks the name up in it, or on failure leaves the table empty |
| Client.NeverRefetched | taskrabbit.py:90-91 | once a lookup leaves a non-empty table, the next lookup of any name makes no call and keeps the table |
| Client.NonEmptyFill | taskrabbit.py:90-91 | a listing with at least one city, every city having a string name and an id, fills the table with at least one entry |
| Client.PayloadOverrides | taskrabbit.py:111-115 | the payload has the keyword arguments plus `name`, `named_price` and `city`; those three take the given values, and every other keyword argument is kept |
| Client.CreateCall | taskrabbit.py:117 | task creation is a POST of `/api/v1/tasks/` carrying `data={"task": payload}` |
| Client.FindCall | taskrabbit.py:98-105 | `findCity`/`findUser`/`findTask` are GETs of the entity's template filled with `str(id)` |
| Client.AccountCall | taskrabbit.py:119-120 | `findAccount` is a GET of `/api/v1/account` |
| Client.TaskRabbit.constructor | taskrabbit.py:53-66 | a new client holds the token, the `X-Client-Application` header naming the application secret, and an empty city table |
| Client.TaskRabbit.Request | taskrabbit.py:80-87 | the result and the call log are those of `RequestSpec` under the client's authorization and headers |
| Client.TaskRabbit.Cities | taskrabbit.py:95-96 | the city listing request, read as a listing of City entities |
| Client.TaskRabbit.FindTasks | taskrabbit.py:107-108 | the task listing request, read as a listing of Task entities |
| Client.TaskRabbit.FindCity | taskrabbit.py:98-99 | `request("city", [id])`, hydrated as a City |
| Client.TaskRabbit.FindUser | taskrabbit.py:101-102 | `request("user", [id])`, hydrated as a User |
| Client.TaskRabbit.FindTask | taskrabbit.py:104-105 | `request("task", [id])`, hydrated as a Task |
| Client.TaskRabbit.FindAccount | taskrabbit.py:119-120 | `request("account")`, hydrated as a User |
| Client.TaskRabbit.FindCityId | taskrabbit.py:89-93 | the result, the new city table and the call log are those of `CityIdOutcome` from the old table and log |
| Client.TaskRabbit.CreateTask | taskrabbit.py:110-117 | the city id is resolved first, and a failure there is returned with no further call; otherwise the payload request is made and its answer is hydrated as a Task |
| Tasks.ArgsOf | taskrabbit.py:85-87 | a list id's elements become path arguments in order, succeeding iff every element is a scalar; one container element fails the whole list with `UnsupportedId` (see Left out) |
| Tasks.IdOf | taskrabbit.py:179 | a missing `id` fails with `MissingAttribute("id")`; an array id succeeds iff all its elements are scalars, and then becomes the list of their path arguments element by element; any other id succeeds iff it is a scalar, and becomes that single path argument |
| Tasks.CloseIff | taskrabbit.py:179 | close gives true iff the answer's `state` is the string `closed`, false iff it is present and anything else, and an error iff it is absent or the request failed |
| Tasks.CloseCall | taskrabbit.py:179 | closing is a POST of `/api/v1/tasks/<id>/close` |
| Tasks.DeleteCall | taskrabbit.py:182 | deleting is a DELETE of `/api/v1/tasks/<id>`, the override replacing the declared GET |
| Tasks.CommentCall | taskrabbit.py:185-187 | commenting is a POST of `/api/v1/tasks/<id>/comments` carrying `{"comment": {"content": text}}` |
| Tasks.Close | taskrabbit.py:178-179 | the entity's id is read, `task_close` is requested through the owning client, and the answer's `state` is compared with `closed` |
| Tasks.Delete | taskrabbit.py:181-182 | the `task` request with the `delete` override, through the owning client, returning the decoded answer |
| Tasks.Comment | taskrabbit.py:185-187 | the `task_comment` request with the comment data, through the owning client, returning the decoded answer |
| Tasks.OfferCall | taskrabbit.py:160-168 | accept, decline and counter are POSTs of `/api/v1/tasks/<task>/offers/<offer>/<action>`, task id first; a counter carries `charge_price` and `comments` |

## Left out

- OAuth: the `pyoauth2` client and access token, `createAuthorizeUrl` and `setSecrets`. The class-level `APP_SECRET` becomes a constructor argument, and the token's `OAuth %s` header becomes the call's authorization string.
- The HTTP transport and `simplejson`. A call goes to a server function of the calls made so far. A body that does not decode is `None`. JSON numbers are integers only.
- `__repr__` and `__str__`, which are display only.
- `Offer`'s constructor and the Offer entities its methods would build. Its `__init__` calls `super().__init__()` (not valid in Python 2) and never stores the client or the offer's fields, so only the requests its methods are meant to make are modelled. The `offer` listing entry is in the registry but no operation uses it.
- The missing comma after the `account` entry, and the class body's reference to `TaskRabbit` while it is being defined. Both stop the module from loading. The registry is modelled as intended.
- Text.Lower: folds only the ASCII letters A-Z, not the full Unicode case mapping of `unicode.lower()`.
- Endpoints.Format: handles the single-digit positional placeholders the registry uses. It does not model `{{` escapes, named fields, format specs, or a lone `{`, which `str.format` rejects.
- Tasks.IdOf, Tasks.ArgsOf: an id that is a JSON object, or an array holding an array or an object, would be formatted with `str()`; the model reports `UnsupportedId` instead, because it does not model Python's text form of containers.
- Python 2's `UnicodeEncodeError` when a non-ASCII id is formatted into a byte-string template.
- Hydration.Hydrate: both of the source's hydration failures collapse to `MalformedResponse`. One is a value that cannot be unpacked with `**`; the other is a `self` or `request` key. The dictionary's iteration order, which decides which failure the source meets first, is not modelled.
- Hydration.Hydrate: `setattr` on names the object already defines, such as `__class__`, is not modelled.
- Client.TaskRabbit.CreateTask: keyword arguments named `self`, `name`, `named_price_in_dollars` or `city` cannot occur, because Python binds them to the parameters. Of the three payload keys, only `named_price` can therefore be overridden in practice. `PayloadOverrides` states the merge for any keyword arguments.

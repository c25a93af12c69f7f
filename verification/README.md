# Scoring API — a Dafny model of the request pipeline

The scoring API is a small HTTP JSON service. A client POSTs an envelope
(`account`, `login`, `token`, `method`, `arguments`) to `/method`. The
service does four things:

- It validates the envelope against a declarative schema.
- It authenticates the caller with a SHA-512 token. The administrator's
  token changes every hour.
- It routes by method name to one of two handlers:
  - `online_score` validates a contact payload and returns a score. The
    score is cached in a key-value store.
  - `clients_interests` validates a list of client ids and returns the
    stored interests of each.
- It turns the outcome into a JSON body and a status code.

This project models that pipeline with pure functions over immutable
data, and proves what each step promises.

| file | module | what it holds |
|---|---|---|
| `results.dfy` | `Results` | `Option` and `Result` |
| `values.dfy` | `Values` | decoded JSON/Python values with their runtime tags, truthiness and `or`; the exceptions that can escape (`Flow`) |
| `text.dfy` | `Text` | decimal digits and the decimal text of integers |
| `dicts.dfy` | `Dicts` | Python dict semantics on association lists: lookup with numeric key equality, insertion that keeps the first key's position, the dict comprehension, and `**kwargs` unpacking |
| `dates.dfy` | `Dates` | `DD.MM.YYYY` dates, calendar validity, age in completed years |
| `fields.dfy` | `Fields` | typed fields with `required`/`nullable` flags and per-kind validation hooks |
| `schemas.dfy` | `Schemas` | schema construction: every field is assigned, failures are collected, then the schema rule runs |
| `requests.dfy` | `Requests` | the three request schemas and `is_admin` |
| `runtime.dfy` | `Runtime` | the environment (hashes, clock, salts, JSON decoding, float text) and Python's `str()`/`float()` |
| `store.dfy` | `Store` | the key-value store as a map that may be unreachable |
| `scoring.dfy` | `Scoring` | `get_score` (cache key, cache hit, computed score, write-back) and `get_interests` |
| `handler.dfy` | `Handler` | `check_auth`, `method_handler`, the two handlers, and the reply logic of `do_POST` |
| `scenarios.dfy` | `Scenarios` | the integration tests' requests, followed from decoded body to reply |

How the parts are represented:

- **Collaborators.** The store is threaded through the calls as a value:
  every operation that may write returns the new store. The hashes,
  `json.loads`, the text of floats and the current hour are fields of an
  `Env` record, and every proof holds for all of them.
- **Exceptions.** An exception that escapes a step is a `Raised` outcome
  (`TypeError`, `ValueError` or `ConnectionError`).
- **Field and schema rules.** The field classes in `scoring_api/api/api.py`
  are empty stubs, so these rules are taken from the unit tests. Each rule
  lemma cites the test cases it reproduces.

Where the code and its tests point different ways, the model follows the code:

- `check_auth` concatenates `account + login + SALT` as they are
  (`scoring_api/api/handler.py:36`). A null account or login therefore
  raises `TypeError`, and so does an omitted account, which the envelope
  stores as null. The tests' helper (`tests/conftest.py:38-44`)
  substitutes `''` for an omitted account or login when it computes a token.
- The administrator's hour is the local `datetime.now()`
  (`scoring_api/api/handler.py:32`). The model takes it as the opaque
  `Env.hour`.
- `cache_get` is a plain `redis.get` (`scoring_api/api/store.py:39-40`),
  so a store outage while scoring propagates and becomes a 500. The store
  tests at `tests/integration/test_key_value_storage.py:61-87` expect a
  degraded cache miss instead. See `Handler.ScoreStoreDown`.
- `if request:` (`scoring_api/api/handler.py:134`) skips routing for a
  falsy decoded body. An empty JSON object sent over HTTP is therefore
  answered 200 with `{}`. `tests/integration/test_method.py:9-11` expects
  422, but it calls the method handler directly. `Scenarios.EmptyRequest`
  proves both outcomes.

## Model

| member | source | states |
|---|---|---|
| Fields.NewField | tests/unit/test_field.py:8-14 | declaring a field fails exactly when it accepts no type; otherwise the field keeps the declared types, flags and hook |
| Fields.Assign | tests/unit/test_field.py:17-127 | a missing value fails exactly for a required field; null fails exactly for a non-nullable field, required or not; a value of an undeclared type fails with the expected and actual types; a well-typed value is accepted exactly when the field's hook accepts it; an accepted value is stored as given (null when missing) and is null or of a declared type |
| Fields.CharRule | tests/unit/test_requests_fields.py:17-28 | a char field accepts a non-null value exactly when it is a string, the empty string included |
| Fields.ArgumentsRule | tests/unit/test_requests_fields.py:30-40 | an arguments field accepts a non-null value exactly when it is a dict, whatever its keys |
| Fields.EmailRule | tests/unit/test_requests_fields.py:43-61 | an email field accepts exactly the strings that contain `@` |
| Fields.PhoneRule | tests/unit/test_requests_fields.py:64-87 | a phone field accepts exactly an 11-character string starting with `7`, or an integer in [70000000000, 80000000000) |
| Fields.DateRule | tests/unit/test_requests_fields.py:90-112 | a date field accepts exactly the strings that are the `DD.MM.YYYY` text of a real calendar day |
| Fields.BirthDayRule | tests/unit/test_requests_fields.py:115-137 | a birthday field accepts exactly the texts of real days on which, as of today, the holder is at most the age limit in completed years |
| Fields.GenderRule | tests/unit/test_requests_fields.py:140-150 | a gender field accepts exactly the integers 0, 1 and 2 |
| Fields.ClientIdsRule | tests/unit/test_requests_fields.py:153-173 | a client-ids field accepts exactly the non-empty lists whose elements are all numbers, negatives included |
| Dates.Parse | tests/unit/test_requests_fields.py:90-112 | a date is read only from text of the `DD.MM.YYYY` shape that names a real day, and formatting the result gives the text back |
| Dates.ParseFormat | tests/unit/test_requests_fields.py:90-99 | every real day is read back from its own `DD.MM.YYYY` text (the inverse of `Dates.Parse`) |
| Dates.RejectedDates | tests/unit/test_requests_fields.py:102-112 | `31.02.2022`, `40.40.2000` and `12.12.12` are not dates |
| Dates.ParsesIffFormatted | tests/unit/test_requests_fields.py:90-112 | a text is read as a date exactly when it is the `DD.MM.YYYY` text of some real day |
| Dates.ParsedAgeIffFormatted | tests/unit/test_requests_fields.py:115-137 | a text is read as a day at most the age limit before today exactly when it is the text of such a real day |
| Schemas.ConstructSpec | tests/unit/test_schema.py:6-102 | construction fails for a schema with no fields; it succeeds exactly when every declared field accepts its argument and the schema rule then accepts the record; the record holds each declared name with its field's value; when any field fails, the error lists every failing field with its error in declaration order; a rule rejection happens only after every field passed |
| Schemas.Construct | tests/unit/test_schema.py:6-102 | a built record satisfies the schema rule and comes from a schema with fields; a field error names at least one failing field; a rejection carries the rule's own reason |
| Schemas.ConstructValues | tests/unit/test_schema.py:14-68 | a constructed record has exactly the declared names, each holding its argument as supplied or null when omitted |
| Schemas.FailuresSound | tests/unit/test_schema.py:54-78 | every collected error names a declared field that failed, with that field's own error, and there are no more errors than fields |
| Schemas.FailuresComplete | tests/unit/test_schema.py:54-78 | every failing field has an error of its own in the collected list, so nothing is short-circuited |
| Schemas.FailuresDistinct | tests/unit/test_schema.py:71-78 | no field is reported twice |
| Schemas.NoFailuresIffAllAssign | tests/unit/test_schema.py:30-78 | the error list is empty exactly when every field accepts its input |
| Schemas.CollectContents | tests/unit/test_schema.py:14-27 | when all fields pass, the record's keys are the declared names and each holds its field's assigned value |
| Schemas.CollectValues | tests/unit/test_schema.py:14-27 | when all fields pass, the record's keys are the declared names and each holds its argument as supplied, or null when omitted |
| Schemas.SameDeclaredInputs | tests/unit/test_schema.py:47-51 | errors and record depend only on the arguments whose names are declared |
| Schemas.ConstructIgnoresUndeclared | tests/unit/test_schema.py:47-51 | construction gives the same result after dropping every undeclared keyword argument |
| Schemas.ErrorTextNonEmpty | tests/integration/test_method.py:20-29 | a failed construction has a non-empty message whenever the schema's rule never rejects with an empty reason |
| Requests.ClientsInterestsSpec | scoring_api/api/api.py:38-40 | the clients-interests payload is built exactly when `client_ids` is present and a non-empty list of numbers and `date`, when given and non-null, is a real day; the ids are kept as given |
| Requests.ClientsInterestsSchema | scoring_api/api/api.py:38-40 | the clients-interests table declares each name once and has no rule across fields |
| Requests.OnlineScoreSpec | scoring_api/api/api.py:43-49 | the online-score payload is built exactly when all six optional, nullable fields accept their arguments and at least one of (first_name, last_name), (email, phone), (birthday, gender) is supplied non-null in full |
| Requests.OnlineScoreSchema | scoring_api/api/api.py:43-49 | the online-score table declares each name once, and its rule accepts a record exactly when one of the three pairs is filled |
| Requests.OnlineScoreNames | scoring_api/api/api.py:43-49 | the six fields are first_name, last_name, email, phone, birthday and gender, in that order |
| Requests.OnlineScoreRecord | scoring_api/api/api.py:43-49 | once the six fields pass, the pair rule on the record holds exactly when one of the pairs was supplied non-null |
| Requests.OnlineScoreValues | scoring_api/api/api.py:43-49 | a built payload has exactly the six names, each holding its argument or null |
| Requests.OnlineScoreNeedsAPair | tests/unit/test_requests_schemas.py:80-109 | no arguments, or all six null, never make a payload |
| Requests.MethodSpec | scoring_api/api/api.py:52-57 | the envelope is built exactly when `login`, `token` and `arguments` are present (null allowed), `method` is a string (empty allowed), and `account` is omitted, null or a string; the record holds the five values as supplied, `account` null when omitted |
| Requests.MethodSchema | scoring_api/api/api.py:52-57 | the envelope table declares each name once and has no rule across fields |
| Requests.MethodNames | scoring_api/api/api.py:52-57 | the five fields are account, login, token, arguments and method, in that order |
| Requests.AdminByLoginOnly | scoring_api/api/api.py:59-61 | only `login` decides `is_admin`: a missing or null login is never the administrator's, records agreeing on `login` agree, and a record matches one administrator login at most |
| Requests.IsAdmin | scoring_api/api/api.py:59-61 | a missing or null login is not the administrator's, and neither is any other text login |
| Requests.SchemaErrorsHaveText | tests/integration/test_clients_interests.py:24-27 | each of the three schemas refuses a request with a non-empty message |
| Runtime.PyStr | scoring_api/api/scoring.py:24 | `str()` gives a string itself, an integer's decimal text, and `None` for null |
| Runtime.ToFloat | scoring_api/api/scoring.py:30 | `float()` converts numbers exactly; it raises exactly for non-numbers other than parseable text, with `ValueError` for text and `TypeError` otherwise |
| Runtime.JsonLoads | scoring_api/api/scoring.py:49 | `json.loads` of text gives the decoder's value and raises exactly when the text does not decode, with `ValueError` for text and `TypeError` for anything else |
| Store.Get | scoring_api/api/store.py:33-34 | a read raises `ConnectionError` exactly when the store is unreachable; otherwise it gives the stored value, or null for an absent key |
| Store.CacheSet | scoring_api/api/store.py:42-43 | a write raises exactly when the store is unreachable; otherwise the key holds the value and every other key reads as before |
| Store.CacheGet | scoring_api/api/store.py:39-40 | a cached read raises `ConnectionError` exactly when the store is unreachable, like a plain read; otherwise it gives the stored value, or null for an absent key |
| Scoring.Part | scoring_api/api/scoring.py:17-24 | a falsy key part contributes nothing, and a string contributes itself |
| Scoring.ScoreKey | scoring_api/api/scoring.py:23-25 | every score cache key starts with `uid:` |
| Scoring.KeyIgnoresEmailAndGender | scoring_api/api/scoring.py:17-25 | the cache key is the same whatever the email and gender |
| Scoring.KeyPartsRunTogether | scoring_api/api/scoring.py:17-25 | first name `ab` with no last name and first name `a` with last name `b` share a key, though their scores differ |
| Scoring.ComputeScore | scoring_api/api/scoring.py:31-38 | the computed score is the integer 0 exactly when no term applies, and otherwise a float from 0.5 to 5.0 |
| Scoring.ScoreValues | scoring_api/api/scoring.py:31-38 | every computed score is one of 0, 0.5, 1.5, 2, 3, 3.5, 4.5, 5 |
| Scoring.ScoreWeights | scoring_api/api/scoring.py:31-38 | a truthy phone adds exactly 1.5, a truthy email 1.5, completing birthday with gender 1.5, and completing first with last name 0.5; a birthday without a gender or a first name without a last name adds nothing |
| Scoring.GenderZeroEarnsNothing | scoring_api/api/scoring.py:35-36 | with gender 0 the birthday earns nothing: the score equals the score without a birthday |
| Scoring.GetScore | scoring_api/api/scoring.py:8-41 | an unreachable store raises `ConnectionError`; a truthy cached value is returned as `float()` of it with the store unchanged; otherwise the computed score is returned and written under the key; the result is the integer 0 or a float |
| Scoring.GetScoreIdempotent | scoring_api/api/scoring.py:28-41 | calling again on the store a call left returns the same score and the same store |
| Scoring.FreshAndCachedScores | tests/integration/test_key_value_storage.py:10-58 | on an empty store, birthday, gender and both names score 2.0; without the first name the score is 1.5, is cached, and the repeated call answers 1.5 from the cache |
| Scoring.CachedScoreOutlivesItsInputs | scoring_api/api/scoring.py:17-30 | a 3.0 cached for a phone with an email is served to the same phone without an email, whose own score is 1.5 |
| Scoring.GetInterests | scoring_api/api/scoring.py:44-49 | an unreachable store raises; a missing or falsy entry under `i:<id>` gives `[]`; otherwise the entry is JSON-decoded |
| Scoring.StoredInterests | scoring_api/api/scoring.py:48-49 | interests stored as JSON text under a client's key come back decoded |
| Scoring.IntegerClientKey | scoring_api/api/scoring.py:48 | an integer id is looked up under `i:` followed by its decimal text |
| Scoring.InterestsKey | scoring_api/api/scoring.py:48 | an interests key starts with `i:` and is never a score key, so score writes never touch interests |
| Scoring.InterestsOf | scoring_api/api/handler.py:108-111 | the batch succeeds exactly when every lookup does, giving each id's interests in order; otherwise it raises the exception of the first lookup that raises |
| Dicts.Kwargs | scoring_api/api/handler.py:47 | `**value` succeeds exactly for a dict whose keys are all strings, giving each name its dict value; anything else raises `TypeError` |
| Dicts.GetFirstMatch | scoring_api/api/handler.py:108-111 | a lookup finds a value exactly when some key compares equal, and then it is the value under the first such key |
| Dicts.PutAll | scoring_api/api/handler.py:108-111 | a comprehension's assignments keep every existing entry's key in its place and never shrink the dict |
| Dicts.GetSameKey | scoring_api/api/handler.py:108-111 | keys that compare equal as numbers (`1` and `1.0`) find the same entry |
| Dicts.PutGet | scoring_api/api/handler.py:108-111 | after storing under a key, that key reads the new value and every other key reads as before |
| Dicts.PutUnique | scoring_api/api/handler.py:108-111 | storing keeps the keys distinct |
| Dicts.PutAllSize | scoring_api/api/handler.py:108-111 | a comprehension over n keys adds at most n entries |
| Dicts.PutAllUnique | scoring_api/api/handler.py:108-111 | the comprehension's dict has distinct keys |
| Dicts.PutAllLast | scoring_api/api/handler.py:108-111 | each key maps to the value of its last occurrence |
| Dicts.PutAllKeepsOthers | scoring_api/api/handler.py:108-111 | keys not among the comprehension's keys read as before |
| Dicts.PutAllDistinct | scoring_api/api/handler.py:108-111 | with pairwise distinct keys, the comprehension appends one entry per key, in order |
| Handler.CheckAuth | scoring_api/api/handler.py:29-40 | for the administrator, true exactly when the token is the SHA-512 of the hour and the admin salt; for anyone else with string account and login, true exactly when the token is the SHA-512 of account, login and salt; anyone else raises `TypeError` |
| Handler.AdminIgnoresAccount | scoring_api/api/handler.py:30-33 | the administrator's check does not depend on the account |
| Handler.NullAccountRaises | scoring_api/api/handler.py:35-37 | a non-administrator with a null account makes the check raise |
| Handler.OnlineScoreHandler | scoring_api/api/handler.py:67-94 | arguments that cannot be unpacked with `**` (null or not a dict) raise `TypeError`; arguments the payload schema refuses are answered Invalid Request with the schema's error text, context and store untouched; for anyone but the administrator an exception from `get_score` propagates unchanged; the outcome is otherwise OK, with `has` listing the argument names in order and only score entries written; the administrator's answer is `{"score": 42}` with the store untouched |
| Handler.ScorePayload | scoring_api/api/handler.py:79-93 | a built payload is answered OK with the given context: 42 for the administrator with the store untouched, otherwise a score with only score entries written |
| Handler.ScoreStoreDown | scoring_api/api/handler.py:82-93 | a valid non-administrator payload with the store down raises `ConnectionError` |
| Handler.OnlineScoreAnswer | scoring_api/api/handler.py:74-93 | for a payload that is built, the administrator is answered `{"score": 42}` with the store untouched, anyone else the score `get_score` returns with the store it leaves; either way `has` lists the argument names in order |
| Handler.ClientsInterestsHandler | scoring_api/api/handler.py:97-112 | arguments that cannot be unpacked with `**` raise `TypeError`; arguments the payload schema refuses are answered Invalid Request with the schema's error text and the context untouched; for a built payload, a failing lookup's exception propagates unchanged; the answer is OK exactly when the payload is built and every lookup succeeds; the store is never changed |
| Handler.ClientsInterestsResult | scoring_api/api/handler.py:105-111 | on OK, `nclients` counts every id given, duplicates included; the response has distinct keys, no more entries than ids, and under each id the interests of its last occurrence |
| Handler.InterestsAnswer | scoring_api/api/handler.py:104-111 | an OK answer comes from a built payload whose every lookup succeeded: it is the comprehension over the ids and their interests, `nclients` is the number of ids and the store is unchanged |
| Handler.DistinctClients | scoring_api/api/handler.py:105-111 | with no id repeated, the response has one entry per id, in the order given, each holding that id's interests |
| Handler.DistinctResponse | scoring_api/api/handler.py:108-111 | for ids that are pairwise different keys, the comprehension has one entry per id, in order, each holding that id's looked-up interests |
| Handler.InterestsStoreDown | scoring_api/api/handler.py:108-111 | a valid payload with at least one id and the store down raises `ConnectionError` |
| Handler.Route | scoring_api/api/handler.py:52-61 | `online_score` and `clients_interests` go to their handlers, and any other name gives Not Found with no response and nothing changed; an Invalid Request carries text, a non-OK outcome leaves the store as it was, and only score entries are ever written |
| Handler.AuthenticatedRouted | scoring_api/api/handler.py:51-59 | a valid envelope that passes authentication is answered by routing on its method name, with nothing decided before |
| Handler.MethodHandler | scoring_api/api/handler.py:43-64 | a body that cannot be unpacked raises `TypeError`; an exception from `check_auth` on an accepted envelope propagates unchanged, since only `ValueError` is caught; outcomes are OK, Invalid Request, Forbidden or Not Found; every non-OK outcome leaves the store as it was; Forbidden and Not Found carry no response and leave the context alone; Invalid Request carries text; only score entries are ever written |
| Handler.EnvelopeFirst | scoring_api/api/handler.py:46-49 | an envelope the schema rejects gives Invalid Request with the schema's error text, before authentication |
| Handler.LoginRequired | scoring_api/api/handler.py:46-49 | an envelope without `login` is Invalid Request |
| Handler.WrongTokenForbidden | scoring_api/api/handler.py:51-63 | a valid envelope that fails authentication is Forbidden, with nothing changed, whatever its arguments |
| Handler.UnknownMethod | scoring_api/api/handler.py:60-61 | an authenticated envelope naming an unknown method is Not Found, with nothing changed |
| Handler.RoutePath | scoring_api/api/handler.py:135-140 | a path routes to the method handler exactly when it is `method` with only slashes around it |
| Handler.Strip | scoring_api/api/handler.py:135 | stripping leaves what lies between a run of leading and a run of trailing slashes, itself neither starting nor ending with a slash |
| Handler.DoPost | scoring_api/api/handler.py:124-165 | the body carries `response` exactly when the status is OK, and otherwise a truthy `error`; a non-OK reply leaves the store untouched; only score entries are ever written |
| Handler.RoutedReply | scoring_api/api/handler.py:141-165 | a truthy request to `method` that the method handler answers is replied to with the handler's status and store: its response on OK, otherwise its response or, when falsy, the status's default message, so Forbidden and Not Found carry their default texts |
| Handler.UnreadableBody | scoring_api/api/handler.py:128-132 | a body that cannot be read or decoded is answered `{"error": "Bad Request"}` with status 400 |
| Handler.FalsyRequest | scoring_api/api/handler.py:134 | a falsy decoded request is answered OK with `{}` and nothing else happens |
| Handler.UnknownPath | scoring_api/api/handler.py:140-151 | a truthy request to any other path is Not Found |
| Handler.HandlerException | scoring_api/api/handler.py:141-149 | an exception in the handler is answered `Internal Server Error` with status 500 and the store untouched |
| Handler.NonObjectBody | scoring_api/api/handler.py:141-149 | a truthy decoded body that is not a JSON object is answered 500 |
| Handler.NullAccountServerError | scoring_api/api/handler.py:36 | an accepted envelope from anyone but the administrator with no account, or a null one, is answered 500 Internal Server Error with the store untouched |
| Scenarios.AdminScoreRequest | tests/integration/test_online_score.py:48-63 | the administrator's request with the current hour's token is answered `{"score": 42}`, `has` listing phone and email |
| Scenarios.AdminScoreOverHttp | scoring_api/api/handler.py:124-165 | the same request POSTed to `/method/` gets response `{"score": 42}` with status 200 |
| Scenarios.UserScoreRequest | tests/integration/test_online_score.py:27-45 | a user's phone-and-email request with a valid token, against an empty store, is answered 3.0, and that score is cached |
| Scenarios.EmptyRequest | tests/integration/test_method.py:9-11 | the empty envelope is Invalid Request in the method handler, and over HTTP the falsy `{}` is answered OK with `{}` |
| Scenarios.ClientsInterestsRequest | tests/integration/test_key_value_storage.py:117-135 | with interests stored for clients 1 and 2, the response maps 1 and 2 to their decoded interests and `nclients` is 2 |
| Scenarios.InterestsRequest | tests/integration/test_key_value_storage.py:117-135 | a request for clients 1 and 2 whose lookups give `a` and `b` is answered `{1: a, 2: b}` with `nclients` 2 and the store unchanged |
| Scenarios.UnknownClientsRequest | tests/integration/test_key_value_storage.py:90-114 | with nothing stored, clients 1 and 2 are both answered `[]` and the store stays empty |

## Left out

- `scoring_api/api/store.py` is modelled as a map that is reachable or not. Redis, connection timeouts and TTL expiry are left out. The retry and degrade-to-null behaviour the store unit tests expect is not in the code.
- Scoring.GetScore: the store keeps a written score as the value itself, not as the text Redis holds (`decode_responses=True`). For a non-zero score the two agree, since `float()` of the text gives the same number back. They differ for a zero score, which both empty names reach: Redis holds the truthy text `"0"`, so the program's second call answers `float("0") = 0.0` from the cache, while the model holds the falsy integer 0, recomputes, and answers the integer 0 again. `Scoring.GetScoreIdempotent` is stated for the model's store and does not cover this difference.
- `scoring_api/api/server.py` and `scoring_api/main.py` are left out: the socket loop, option parsing and logging setup.
- The I/O of `do_POST` is left out: reading the body, `json.loads`, the request id, headers, logging and writing the reply. `Handler.DoPost` starts from the decoded body, or None when reading or decoding failed.
- SHA-512, MD5, `json.loads`, the text of floats and containers, and the current hour are opaque parameters. Hash internals are not modelled.
- `scoring_api/api/constants.py` is not part of this model. The status codes are taken as 200, 400, 403, 404, 422 and 500 with the usual messages. Salts and the administrator login are parameters.
- The field and schema classes are stubs in the source. Their rules come from the unit tests. The error message wording is not in the source, so the model's text is illustrative; the handlers only promise that Invalid Request carries text.
- The age limit for birthdays is the parameter `Env.maxAge`, because the limit is not in the code.
- The phone rule checks length 11 and a leading `7`. It does not require the other characters to be digits, because no test decides that.
- Python's bool is not treated as an int. Values carry their exact runtime tag, so `True` is not accepted where an integer is expected. The tests never assign a bool to an integer field.
- Handler.CheckAuth: a non-administrator whose account or login is not a string raises `TypeError`. This is exact for the values the envelope lets through (string or null). It is not exact for every Python type.
- Handler.MethodHandler: context updates made before an exception are not modelled. The context is returned only on a normal outcome, and the reply never includes it.
- Dicts.Kwargs: dict keys are decoded JSON, so they are always strings over HTTP. `**` of a dict with a non-string key raises `TypeError`, as in Python.
- Python floats are exact reals (`VFloat(real)`). Every score is a sum of halves and wholes, which binary floating point represents exactly, so no rounding is lost.
- A decoded dict value may list a key twice, which `json.loads` never produces: it keeps the last. On such a value `Dicts.Keys` (the `has` list) and `Dicts.Kwargs`, which takes the first match, differ from Python. Bodies that come from `json.loads` have distinct keys.
- `client_ids` is declared with `required=True` only (`scoring_api/api/api.py:39`). The model takes the unstated `nullable` as false, which is what the schema tests expect of a null `client_ids` (`tests/unit/test_requests_schemas.py:46`).

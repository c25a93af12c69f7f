/**
 * Request handling: authentication, dispatch by method name, the two
 * method handlers, and the status and body of the HTTP reply.
 */
module Handler {
  import opened Results
  import opened Values
  import Dicts
  import opened Schemas
  import opened Requests
  import opened Runtime
  import opened Store
  import opened Scoring

  /** The status codes of a reply. */
  datatype Status = OK | BadRequest | Forbidden | NotFound | InvalidRequest | InternalError

  function Code(s: Status): int {
    match s
    case OK => 200
    case BadRequest => 400
    case Forbidden => 403
    case NotFound => 404
    case InvalidRequest => 422
    case InternalError => 500
  }

  /** The message sent for an error status when the handler gives none. */
  function DefaultMessage(s: Status): string {
    match s
    case OK => "OK"
    case BadRequest => "Bad Request"
    case Forbidden => "Forbidden"
    case NotFound => "Not Found"
    case InvalidRequest => "Invalid Request"
    case InternalError => "Internal Server Error"
  }

  /** Every status but OK has an entry in the table of error messages. */
  predicate IsError(s: Status) {
    s != OK
  }

  /** The per-request context the handlers annotate (`has`, `nclients`). */
  type Context = map<string, Value>

  /** What a handler returns normally: the response, its status, and the updated context and store. */
  datatype Handled = Handled(response: Value, code: Status, ctx: Context, store: Store)

  /** An attribute of a constructed request; every declared field is present. */
  function Attr(r: Record, name: string): Value {
    if name in r then r[name] else VNone
  }

  // Authentication.

  /**
   * `check_auth`: an administrator's token is the SHA-512 of the current
   * hour and the administrator salt; anyone else's is the SHA-512 of
   * account, login and salt run together. Concatenating a null account or
   * login raises `TypeError`.
   */
  function CheckAuth(env: Env, req: Record): (r: Flow<bool>)
    ensures r.Raised? <==> !IsAdmin(req, env.adminLogin) && !(Attr(req, "account").VStr? && Attr(req, "login").VStr?)
    ensures r.Raised? ==> r.exc == TypeError
    ensures IsAdmin(req, env.adminLogin)
            ==> (r == Normal(true) <==> Attr(req, "token") == VStr(env.sha512(env.hour + env.adminSalt)))
    ensures !IsAdmin(req, env.adminLogin) && r.Normal?
            ==> (r.value <==> Attr(req, "token")
                              == VStr(env.sha512(Attr(req, "account").s + Attr(req, "login").s + env.salt)))
    ensures r == Normal(true) ==> Attr(req, "token").VStr?
  {
    if IsAdmin(req, env.adminLogin) then
      Normal(VStr(env.sha512(env.hour + env.adminSalt)) == Attr(req, "token"))
    else
      match (Attr(req, "account"), Attr(req, "login"))
      case (VStr(account), VStr(login)) => Normal(VStr(env.sha512(account + login + env.salt)) == Attr(req, "token"))
      case _ => Raised(TypeError)
  }

  /** An administrator is authenticated by the hourly token alone, whatever the account. */
  lemma AdminIgnoresAccount(env: Env, req: Record, account: Value)
    requires IsAdmin(req, env.adminLogin)
    ensures CheckAuth(env, req["account" := account]) == CheckAuth(env, req)
  {
  }

  /** A caller who is not the administrator and gave no account cannot be authenticated: the check raises. */
  lemma NullAccountRaises(env: Env, req: Record)
    requires !IsAdmin(req, env.adminLogin) && Attr(req, "account") == VNone
    ensures CheckAuth(env, req) == Raised(TypeError)
  {
  }

  // The method handlers.

  /** `{"score": score}`. */
  function ScoreResponse(score: Value): Value {
    VDict([(VStr("score"), score)])
  }

  function ApplicantOf(rec: Record): Applicant {
    Applicant(Attr(rec, "phone"), Attr(rec, "email"), Attr(rec, "birthday"), Attr(rec, "gender"),
              Attr(rec, "first_name"), Attr(rec, "last_name"))
  }

  /** The store differs at most in score cache entries. */
  ghost predicate OnlyScoresWritten(st: Store, st': Store) {
    st'.reachable == st.reachable && forall k :: !IsScoreKey(k) ==> Get(st', k) == Get(st, k)
  }

  /**
   * `online_score_handler`: the arguments are unpacked into the payload
   * schema; on success the context records the argument names, an
   * administrator is answered 42 without consulting the store, and anyone
   * else gets `get_score` of the payload.
   */
  function OnlineScoreHandler(env: Env, req: Record, ctx: Context, st: Store): (r: Flow<Handled>)
    ensures Dicts.Kwargs(Attr(req, "arguments")).Raised? ==> r == Raised(TypeError)
    ensures var kw := Dicts.Kwargs(Attr(req, "arguments"));
            kw.Normal? && Construct(OnlineScoreSchema(env.today, env.maxAge), kw.value).Ok?
            && !IsAdmin(req, env.adminLogin)
            && GetScore(env, st, ApplicantOf(Construct(OnlineScoreSchema(env.today, env.maxAge), kw.value).value)).Raised?
            ==> r == Raised(GetScore(env, st, ApplicantOf(Construct(OnlineScoreSchema(env.today, env.maxAge), kw.value).value)).exc)
    ensures r.Normal? ==> r.value.code == OK || r.value.code == InvalidRequest
    ensures r.Normal? && r.value.code == InvalidRequest
            ==> r.value.response.VStr? && r.value.ctx == ctx && r.value.store == st
    ensures r.Normal? && r.value.code == OK
            ==> && Attr(req, "arguments").VDict?
                && r.value.ctx == ctx["has" := VList(Dicts.Keys(Attr(req, "arguments").entries))]
                && OnlyScoresWritten(st, r.value.store)
    ensures r.Normal? && r.value.code == OK && IsAdmin(req, env.adminLogin)
            ==> r.value.response == ScoreResponse(VInt(42)) && r.value.store == st
    ensures var kw := Dicts.Kwargs(Attr(req, "arguments"));
            kw.Normal? && Construct(OnlineScoreSchema(env.today, env.maxAge), kw.value).Err?
            ==> var e := Construct(OnlineScoreSchema(env.today, env.maxAge), kw.value).error;
                r == Normal(Handled(VStr(ErrorText(e)), InvalidRequest, ctx, st))
  {
    var args := Attr(req, "arguments");
    match Dicts.Kwargs(args)
    case Raised(e) => Raised(e)
    case Normal(kw) =>
      match Construct(OnlineScoreSchema(env.today, env.maxAge), kw)
      case Err(e) => Normal(Handled(VStr(ErrorText(e)), InvalidRequest, ctx, st))
      case Ok(rec) => ScorePayload(env, req, rec, ctx["has" := VList(Dicts.Keys(args.entries))], st)
  }

  /** The answer to a built online-score payload: 42 for the administrator, otherwise `get_score`. */
  function ScorePayload(env: Env, req: Record, rec: Record, ctx: Context, st: Store): (r: Flow<Handled>)
    ensures r.Normal? ==> r.value.code == OK && r.value.ctx == ctx && OnlyScoresWritten(st, r.value.store)
    ensures r.Normal? && IsAdmin(req, env.adminLogin)
            ==> r.value.response == ScoreResponse(VInt(42)) && r.value.store == st
  {
    if IsAdmin(req, env.adminLogin) then
      Normal(Handled(ScoreResponse(VInt(42)), OK, ctx, st))
    else
      match GetScore(env, st, ApplicantOf(rec))
      case Raised(e) => Raised(e)
      case Normal(scored) => Normal(Handled(ScoreResponse(scored.0), OK, ctx, scored.1))
  }

  /**
   * A payload that is built is answered OK and recorded in `has`: 42 for
   * the administrator, otherwise the score `get_score` returns together with
   * the store it leaves.
   */
  lemma OnlineScoreAnswer(env: Env, req: Record, ctx: Context, st: Store, kw: map<string, Value>, rec: Record)
    requires Dicts.Kwargs(Attr(req, "arguments")) == Normal(kw)
    requires Construct(OnlineScoreSchema(env.today, env.maxAge), kw) == Ok(rec)
    ensures var ctx' := ctx["has" := VList(Dicts.Keys(Attr(req, "arguments").entries))];
            && (IsAdmin(req, env.adminLogin)
                ==> OnlineScoreHandler(env, req, ctx, st) == Normal(Handled(ScoreResponse(VInt(42)), OK, ctx', st)))
            && (!IsAdmin(req, env.adminLogin) && GetScore(env, st, ApplicantOf(rec)).Normal?
                ==> var (score, st') := GetScore(env, st, ApplicantOf(rec)).value;
                    OnlineScoreHandler(env, req, ctx, st) == Normal(Handled(ScoreResponse(score), OK, ctx', st')))
  {
  }

  /** The client ids of a constructed clients-interests request, which is always a list. */
  function ClientIds(rec: Record): seq<Value> {
    var ids := Attr(rec, "client_ids");
    if ids.VList? then ids.items else []
  }

  /**
   * `clients_interests_handler`: the arguments are unpacked into the
   * payload schema; on success the context records how many ids were
   * given, and the response maps each id to its interests.
   */
  function ClientsInterestsHandler(env: Env, req: Record, ctx: Context, st: Store): (r: Flow<Handled>)
    ensures Dicts.Kwargs(Attr(req, "arguments")).Raised? ==> r == Raised(TypeError)
    ensures var kw := Dicts.Kwargs(Attr(req, "arguments"));
            kw.Normal? && Construct(ClientsInterestsSchema(), kw.value).Ok?
            ==> var ids := ClientIds(Construct(ClientsInterestsSchema(), kw.value).value);
                && (InterestsOf(env, st, ids).Raised? ==> r == Raised(InterestsOf(env, st, ids).exc))
                && (InterestsOf(env, st, ids).Normal? ==> r.Normal? && r.value.code == OK)
    ensures r.Normal? && r.value.code == OK <==> ServedBatch(env, req, st)
    ensures r.Normal? ==> r.value.store == st
    ensures r.Normal? ==> r.value.code == OK || r.value.code == InvalidRequest
    ensures r.Normal? && r.value.code == InvalidRequest ==> r.value.response.VStr? && r.value.ctx == ctx
    ensures var kw := Dicts.Kwargs(Attr(req, "arguments"));
            kw.Normal? && Construct(ClientsInterestsSchema(), kw.value).Err?
            ==> var e := Construct(ClientsInterestsSchema(), kw.value).error;
                r == Normal(Handled(VStr(ErrorText(e)), InvalidRequest, ctx, st))
  {
    match Dicts.Kwargs(Attr(req, "arguments"))
    case Raised(e) => Raised(e)
    case Normal(kw) =>
      match Construct(ClientsInterestsSchema(), kw)
      case Err(e) => Normal(Handled(VStr(ErrorText(e)), InvalidRequest, ctx, st))
      case Ok(rec) =>
        var ids := ClientIds(rec);
        var ctx' := ctx["nclients" := VInt(|ids|)];
        match InterestsOf(env, st, ids)
        case Raised(e) => Raised(e)
        case Normal(interests) => Normal(Handled(VDict(Dicts.PutAll([], ids, interests)), OK, ctx', st))
  }

  /** The arguments unpack into a clients-interests payload and every lookup of its ids succeeds. */
  predicate ServedBatch(env: Env, req: Record, st: Store) {
    var kw := Dicts.Kwargs(Attr(req, "arguments"));
    && kw.Normal?
    && Construct(ClientsInterestsSchema(), kw.value).Ok?
    && InterestsOf(env, st, ClientIds(Construct(ClientsInterestsSchema(), kw.value).value)).Normal?
  }

  /** What a successful batch is made of: the unpacked arguments, their ids, and the interests looked up. */
  lemma InterestsAnswer(env: Env, req: Record, ctx: Context, st: Store)
      returns (kw: map<string, Value>, ids: seq<Value>, interests: seq<Value>)
    requires ServedBatch(env, req, st)
    ensures Dicts.Kwargs(Attr(req, "arguments")) == Normal(kw)
    ensures "client_ids" in kw && kw["client_ids"] == VList(ids)
    ensures InterestsOf(env, st, ids) == Normal(interests) && |interests| == |ids|
    ensures ClientsInterestsHandler(env, req, ctx, st).value
            == Handled(VDict(Dicts.PutAll([], ids, interests)), OK, ctx["nclients" := VInt(|ids|)], st)
  {
    kw := Dicts.Kwargs(Attr(req, "arguments")).value;
    var rec := Construct(ClientsInterestsSchema(), kw).value;
    ClientsInterestsSpec(kw);
    ids := ClientIds(rec);
    interests := InterestsOf(env, st, ids).value;
  }

  /**
   * A successful batch counts every id given, duplicates included; the
   * response holds, under each id, the interests of its last occurrence,
   * and has no more entries than there were ids.
   */
  lemma ClientsInterestsResult(env: Env, req: Record, ctx: Context, st: Store)
    requires ServedBatch(env, req, st)
    ensures Dicts.Kwargs(Attr(req, "arguments")).Normal?
    ensures var kw := Dicts.Kwargs(Attr(req, "arguments")).value;
            && "client_ids" in kw && kw["client_ids"].VList?
            && var ids := kw["client_ids"].items;
               var h := ClientsInterestsHandler(env, req, ctx, st).value;
               && h.ctx == ctx["nclients" := VInt(|ids|)]
               && h.response.VDict?
               && |h.response.entries| <= |ids|
               && Dicts.UniqueKeys(h.response.entries)
               && forall i :: 0 <= i < |ids| && Dicts.LastOccurrence(ids, i)
                    ==> GetInterests(env, st, ids[i]).Normal?
                        && Dicts.Get(h.response.entries, ids[i]) == Some(GetInterests(env, st, ids[i]).value)
  {
    var kw, ids, interests := InterestsAnswer(env, req, ctx, st);
    Dicts.PutAllSize([], ids, interests);
    Dicts.PutAllUnique([], ids, interests);
    forall i | 0 <= i < |ids| && Dicts.LastOccurrence(ids, i)
      ensures Dicts.Get(Dicts.PutAll([], ids, interests), ids[i]) == Some(GetInterests(env, st, ids[i]).value)
    {
      Dicts.PutAllLast([], ids, interests, i);
    }
  }

  /**
   * With no id repeated, the response has one entry per id, in the order
   * the ids were given.
   */
  lemma DistinctClients(env: Env, req: Record, ctx: Context, st: Store)
    requires ServedBatch(env, req, st)
    ensures Dicts.Kwargs(Attr(req, "arguments")).Normal?
    ensures var kw := Dicts.Kwargs(Attr(req, "arguments")).value;
            && "client_ids" in kw && kw["client_ids"].VList?
            && var ids := kw["client_ids"].items;
               var h := ClientsInterestsHandler(env, req, ctx, st).value;
               (forall i, j :: 0 <= i < j < |ids| ==> !Dicts.SameKey(ids[i], ids[j]))
               ==> && h.response.VDict? && |h.response.entries| == |ids|
                   && forall i :: 0 <= i < |ids| ==> && GetInterests(env, st, ids[i]).Normal?
                                                     && h.response.entries[i] == (ids[i], GetInterests(env, st, ids[i]).value)
  {
    var kw, ids, interests := InterestsAnswer(env, req, ctx, st);
    if forall i, j :: 0 <= i < j < |ids| ==> !Dicts.SameKey(ids[i], ids[j]) {
      DistinctResponse(env, st, ids, interests);
    }
  }

  lemma DistinctResponse(env: Env, st: Store, ids: seq<Value>, interests: seq<Value>)
    requires InterestsOf(env, st, ids) == Normal(interests)
    requires forall i, j :: 0 <= i < j < |ids| ==> !Dicts.SameKey(ids[i], ids[j])
    ensures |interests| == |ids|
    ensures |Dicts.PutAll([], ids, interests)| == |ids|
    ensures forall i :: 0 <= i < |ids| ==> && GetInterests(env, st, ids[i]).Normal?
                                            && Dicts.PutAll([], ids, interests)[i] == (ids[i], GetInterests(env, st, ids[i]).value)
  {
    Dicts.PutAllDistinct([], ids, interests);
    var z := Dicts.Zip(ids, interests);
    assert [] + z == z;
  }

  /** A lookup failure in the store ends the batch: with at least one id and the store down, the handler raises. */
  lemma InterestsStoreDown(env: Env, req: Record, ctx: Context, st: Store)
    requires !st.reachable
    requires Dicts.Kwargs(Attr(req, "arguments")).Normal?
    requires Construct(ClientsInterestsSchema(), Dicts.Kwargs(Attr(req, "arguments")).value).Ok?
    requires |ClientIds(Construct(ClientsInterestsSchema(), Dicts.Kwargs(Attr(req, "arguments")).value).value)| > 0
    ensures ClientsInterestsHandler(env, req, ctx, st) == Raised(ConnectionError)
  {
    var ids := ClientIds(Construct(ClientsInterestsSchema(), Dicts.Kwargs(Attr(req, "arguments")).value).value);
    assert GetInterests(env, st, ids[0]).Raised?;
  }

  /**
   * A valid payload from anyone but the administrator needs the store: with
   * the store down, scoring raises.
   */
  lemma ScoreStoreDown(env: Env, req: Record, ctx: Context, st: Store)
    requires !st.reachable && !IsAdmin(req, env.adminLogin)
    requires Dicts.Kwargs(Attr(req, "arguments")).Normal?
    requires Construct(OnlineScoreSchema(env.today, env.maxAge), Dicts.Kwargs(Attr(req, "arguments")).value).Ok?
    ensures OnlineScoreHandler(env, req, ctx, st) == Raised(ConnectionError)
  {
  }

  /** The handler of a method name, or NotFound for any other name. */
  function Route(env: Env, req: Record, ctx: Context, st: Store): (r: Flow<Handled>)
    ensures Attr(req, "method") != VStr("online_score") && Attr(req, "method") != VStr("clients_interests")
            ==> r == Normal(Handled(VNone, NotFound, ctx, st))
    ensures Attr(req, "method") == VStr("online_score") ==> r == OnlineScoreHandler(env, req, ctx, st)
    ensures Attr(req, "method") == VStr("clients_interests") ==> r == ClientsInterestsHandler(env, req, ctx, st)
    ensures r.Normal? ==> r.value.code in {OK, InvalidRequest, NotFound}
    ensures r.Normal? && r.value.code != OK ==> r.value.store == st
    ensures r.Normal? && r.value.code == NotFound ==> r.value.response == VNone && r.value.ctx == ctx
    ensures r.Normal? && r.value.code == InvalidRequest ==> r.value.response.VStr?
    ensures r.Normal? ==> OnlyScoresWritten(st, r.value.store)
  {
    if Attr(req, "method") == VStr("online_score") then OnlineScoreHandler(env, req, ctx, st)
    else if Attr(req, "method") == VStr("clients_interests") then ClientsInterestsHandler(env, req, ctx, st)
    else Normal(Handled(VNone, NotFound, ctx, st))
  }

  /**
   * `method_handler`: the request body is unpacked into the envelope
   * schema; a failure is InvalidRequest with the error text, an envelope
   * that fails authentication is Forbidden, and an authenticated one is
   * routed by its method name. Exceptions other than a schema's error
   * propagate to the caller.
   */
  function MethodHandler(env: Env, body: Value, ctx: Context, st: Store): (r: Flow<Handled>)
    ensures Dicts.Kwargs(body).Raised? ==> r == Raised(TypeError)
    ensures var kw := Dicts.Kwargs(body);
            kw.Normal? && Construct(MethodSchema(), kw.value).Ok?
            && CheckAuth(env, Construct(MethodSchema(), kw.value).value).Raised?
            ==> r == Raised(CheckAuth(env, Construct(MethodSchema(), kw.value).value).exc)
    ensures r.Normal? ==> r.value.code in {OK, InvalidRequest, Forbidden, NotFound}
    ensures r.Normal? && r.value.code != OK ==> r.value.store == st
    ensures r.Normal? && (r.value.code == Forbidden || r.value.code == NotFound)
            ==> r.value.response == VNone && r.value.ctx == ctx
    ensures r.Normal? && r.value.code == InvalidRequest ==> r.value.response.VStr?
    ensures r.Normal? ==> OnlyScoresWritten(st, r.value.store)
  {
    match Dicts.Kwargs(body)
    case Raised(e) => Raised(e)
    case Normal(kw) =>
      match Construct(MethodSchema(), kw)
      case Err(e) => Normal(Handled(VStr(ErrorText(e)), InvalidRequest, ctx, st))
      case Ok(req) =>
        match CheckAuth(env, req)
        case Raised(e) => Raised(e)
        case Normal(authorized) =>
          if authorized then Route(env, req, ctx, st)
          else Normal(Handled(VNone, Forbidden, ctx, st))
  }

  /**
   * The envelope is checked before anything else: a body the envelope
   * schema rejects is answered InvalidRequest with the schema's error text,
   * whatever its token, and nothing else happens.
   */
  lemma EnvelopeFirst(env: Env, body: Value, ctx: Context, st: Store)
    requires Dicts.Kwargs(body).Normal? && Construct(MethodSchema(), Dicts.Kwargs(body).value).Err?
    ensures MethodHandler(env, body, ctx, st)
            == Normal(Handled(VStr(ErrorText(Construct(MethodSchema(), Dicts.Kwargs(body).value).error)),
                              InvalidRequest, ctx, st))
  {
  }

  /** An envelope without a login is refused before authentication. */
  lemma LoginRequired(env: Env, body: Value, ctx: Context, st: Store)
    requires Dicts.Kwargs(body).Normal? && "login" !in Dicts.Kwargs(body).value
    ensures MethodHandler(env, body, ctx, st).Normal?
    ensures MethodHandler(env, body, ctx, st).value.code == InvalidRequest
  {
    MethodSpec(Dicts.Kwargs(body).value);
  }

  /** A valid envelope with a wrong token is Forbidden, with no response and nothing changed. */
  lemma WrongTokenForbidden(env: Env, body: Value, ctx: Context, st: Store)
    requires Dicts.Kwargs(body).Normal? && Construct(MethodSchema(), Dicts.Kwargs(body).value).Ok?
    requires CheckAuth(env, Construct(MethodSchema(), Dicts.Kwargs(body).value).value) == Normal(false)
    ensures MethodHandler(env, body, ctx, st) == Normal(Handled(VNone, Forbidden, ctx, st))
  {
  }

  /** An envelope that is built and authenticated is handed to the handler of its method. */
  lemma AuthenticatedRouted(env: Env, body: Value, ctx: Context, st: Store, kw: map<string, Value>, req: Record)
    requires Dicts.Kwargs(body) == Normal(kw)
    requires Construct(MethodSchema(), kw) == Ok(req)
    requires CheckAuth(env, req) == Normal(true)
    ensures MethodHandler(env, body, ctx, st) == Route(env, req, ctx, st)
  {
  }

  /** An authenticated envelope naming any other method is Not Found, with no response and nothing changed. */
  lemma UnknownMethod(env: Env, body: Value, ctx: Context, st: Store, kw: map<string, Value>, req: Record)
    requires Dicts.Kwargs(body) == Normal(kw)
    requires Construct(MethodSchema(), kw) == Ok(req)
    requires CheckAuth(env, req) == Normal(true)
    requires Attr(req, "method") != VStr("online_score") && Attr(req, "method") != VStr("clients_interests")
    ensures MethodHandler(env, body, ctx, st) == Normal(Handled(VNone, NotFound, ctx, st))
  {
  }

  // The HTTP reply.

  /** The JSON body of a reply: `{response, code}` on success, `{error, code}` otherwise. */
  datatype Body = Answer(response: Value, code: Status) | Error(error: Value, code: Status)

  datatype Reply = Reply(body: Body, store: Store)

  predicate AllSlashes(s: string) {
    forall i :: 0 <= i < |s| ==> s[i] == '/'
  }

  function StripLeft(s: string): string {
    if |s| > 0 && s[0] == '/' then StripLeft(s[1..]) else s
  }

  function StripRight(s: string): string {
    if |s| > 0 && s[|s| - 1] == '/' then StripRight(s[..|s| - 1]) else s
  }

  /**
   * `path.strip('/')`: what is left between a run of leading and a run of
   * trailing slashes, itself neither starting nor ending with one.
   */
  function Strip(s: string): (r: string)
    ensures |r| == 0 || (r[0] != '/' && r[|r| - 1] != '/')
    ensures exists a, b :: AllSlashes(a) && AllSlashes(b) && s == a + r + b
  {
    var t := StripLeft(s);
    var r := StripRight(t);
    assert (exists a, b :: AllSlashes(a) && AllSlashes(b) && s == a + r + b) by {
      StripLeftShape(s);
      StripRightShape(t);
      var a :| AllSlashes(a) && s == a + t;
      var b :| AllSlashes(b) && t == r + b;
      assert s == a + r + b;
    }
    assert |r| == 0 || (r[0] != '/' && r[|r| - 1] != '/') by {
      StripLeftShape(s);
      StripRightShape(t);
      var b :| AllSlashes(b) && t == r + b;
      if |r| > 0 {
        assert t[0] == r[0];
      }
    }
    r
  }

  lemma {:induction false} StripLeftOf(a: string, t: string)
    requires AllSlashes(a) && (|t| == 0 || t[0] != '/')
    ensures StripLeft(a + t) == t
  {
    if |a| > 0 {
      assert (a + t)[1..] == a[1..] + t;
      StripLeftOf(a[1..], t);
    }
  }

  lemma {:induction false} StripRightOf(t: string, b: string)
    requires AllSlashes(b) && (|t| == 0 || t[|t| - 1] != '/')
    ensures StripRight(t + b) == t
  {
    if |b| > 0 {
      assert (t + b)[..|t + b| - 1] == t + b[..|b| - 1];
      StripRightOf(t, b[..|b| - 1]);
    } else {
      assert t + b == t;
    }
  }

  lemma {:induction false} StripLeftShape(s: string)
    ensures exists a :: AllSlashes(a) && s == a + StripLeft(s)
    ensures |StripLeft(s)| == 0 || StripLeft(s)[0] != '/'
  {
    if |s| > 0 && s[0] == '/' {
      StripLeftShape(s[1..]);
      var a :| AllSlashes(a) && s[1..] == a + StripLeft(s[1..]);
      assert s == ("/" + a) + StripLeft(s);
      assert AllSlashes("/" + a);
    } else {
      assert s == "" + s;
      assert AllSlashes("");
    }
  }

  lemma {:induction false} StripRightShape(s: string)
    ensures exists b :: AllSlashes(b) && s == StripRight(s) + b
    ensures |StripRight(s)| == 0 || StripRight(s)[|StripRight(s)| - 1] != '/'
  {
    if |s| > 0 && s[|s| - 1] == '/' {
      StripRightShape(s[..|s| - 1]);
      var b :| AllSlashes(b) && s[..|s| - 1] == StripRight(s[..|s| - 1]) + b;
      assert s == StripRight(s) + (b + "/");
      assert AllSlashes(b + "/");
    } else {
      assert s == s + "";
      assert AllSlashes("");
    }
  }

  /** The router's only path is `method`, with any slashes around it. */
  lemma RoutePath(path: string)
    ensures Strip(path) == "method"
            <==> exists a, b :: AllSlashes(a) && AllSlashes(b) && path == a + "method" + b
  {
    if exists a, b :: AllSlashes(a) && AllSlashes(b) && path == a + "method" + b {
      var a, b :| AllSlashes(a) && AllSlashes(b) && path == a + "method" + b;
      assert path == a + ("method" + b);
      StripLeftOf(a, "method" + b);
      StripRightOf("method", b);
    }
  }

  /**
   * `do_POST` once the body has been read and decoded (`parsed` is None
   * when reading or decoding failed): a truthy request sent to the
   * `method` path is handled, any exception becoming InternalError; the
   * reply carries the response on OK and otherwise the response or, when
   * that is falsy, the status's default message.
   */
  function DoPost(env: Env, parsed: Option<Value>, path: string, requestId: string, st: Store): (r: Reply)
    ensures r.body.Answer? <==> r.body.code == OK
    ensures r.body.Error? ==> Truthy(r.body.error)
    ensures r.body.code != OK ==> r.store == st
    ensures OnlyScoresWritten(st, r.store)
  {
    var context: Context := map["request_id" := VStr(requestId)];
    var request := if parsed.Some? then parsed.value else VNone;
    var code0 := if parsed.Some? then OK else BadRequest;
    var outcome: (Value, Status, Store) :=
      if !Truthy(request) then (VDict([]), code0, st)
      else if Strip(path) != "method" then (VDict([]), NotFound, st)
      else
        match MethodHandler(env, request, context, st)
        case Raised(_) => (VDict([]), InternalError, st)
        case Normal(h) => (h.response, h.code, h.store);
    var (response, code, st') := outcome;
    var body := if !IsError(code) then Answer(response, code)
                else Error(Or(response, VStr(DefaultMessage(code))), code);
    Reply(body, st')
  }

  /**
   * A truthy request to the `method` path is replied to with the method
   * handler's status and store when the handler answers: the response
   * itself on OK, and otherwise the response or, when it is falsy, the
   * status's default message, so Forbidden and Not Found carry their
   * default messages.
   */
  lemma RoutedReply(env: Env, request: Value, path: string, requestId: string, st: Store)
    requires Truthy(request) && Strip(path) == "method"
    ensures var m := MethodHandler(env, request, map["request_id" := VStr(requestId)], st);
            m.Normal? ==>
              DoPost(env, Some(request), path, requestId, st)
              == Reply(if m.value.code == OK then Answer(m.value.response, OK)
                       else Error(Or(m.value.response, VStr(DefaultMessage(m.value.code))), m.value.code),
                       m.value.store)
    ensures var m := MethodHandler(env, request, map["request_id" := VStr(requestId)], st);
            m.Normal? && m.value.code == Forbidden ==>
              DoPost(env, Some(request), path, requestId, st).body == Error(VStr("Forbidden"), Forbidden)
    ensures var m := MethodHandler(env, request, map["request_id" := VStr(requestId)], st);
            m.Normal? && m.value.code == NotFound ==>
              DoPost(env, Some(request), path, requestId, st).body == Error(VStr("Not Found"), NotFound)
  {
  }

  /** A body that cannot be read or decoded is a Bad Request. */
  lemma UnreadableBody(env: Env, path: string, requestId: string, st: Store)
    ensures DoPost(env, None, path, requestId, st) == Reply(Error(VStr("Bad Request"), BadRequest), st)
  {
  }

  /** A decoded request that is falsy (`{}`, `[]`, `0`, `""`, `null`) is answered OK with an empty response. */
  lemma FalsyRequest(env: Env, request: Value, path: string, requestId: string, st: Store)
    requires !Truthy(request)
    ensures DoPost(env, Some(request), path, requestId, st) == Reply(Answer(VDict([]), OK), st)
  {
  }

  /** A truthy request to any path but `method` is Not Found. */
  lemma UnknownPath(env: Env, request: Value, path: string, requestId: string, st: Store)
    requires Truthy(request) && !exists a, b :: AllSlashes(a) && AllSlashes(b) && path == a + "method" + b
    ensures DoPost(env, Some(request), path, requestId, st) == Reply(Error(VStr("Not Found"), NotFound), st)
  {
    RoutePath(path);
  }

  /** An exception in the handler is an Internal Server Error with no detail, and the store is untouched. */
  lemma HandlerException(env: Env, request: Value, path: string, requestId: string, st: Store)
    requires Truthy(request) && Strip(path) == "method"
    requires MethodHandler(env, request, map["request_id" := VStr(requestId)], st).Raised?
    ensures DoPost(env, Some(request), path, requestId, st)
            == Reply(Error(VStr("Internal Server Error"), InternalError), st)
  {
  }

  /**
   * An envelope from anyone but the administrator that gives no account, or
   * a null one, passes the envelope schema (the account is optional) but
   * breaks the token check, and the reply is an Internal Server Error.
   */
  lemma NullAccountServerError(env: Env, request: Value, path: string, requestId: string, st: Store)
    requires Truthy(request) && Strip(path) == "method"
    requires Dicts.Kwargs(request).Normal?
    requires Construct(MethodSchema(), Dicts.Kwargs(request).value).Ok?
    requires var req := Construct(MethodSchema(), Dicts.Kwargs(request).value).value;
             !IsAdmin(req, env.adminLogin) && Attr(req, "account") == VNone
    ensures DoPost(env, Some(request), path, requestId, st)
            == Reply(Error(VStr("Internal Server Error"), InternalError), st)
  {
    var req := Construct(MethodSchema(), Dicts.Kwargs(request).value).value;
    NullAccountRaises(env, req);
    assert MethodHandler(env, request, map["request_id" := VStr(requestId)], st) == Raised(TypeError);
    HandlerException(env, request, path, requestId, st);
  }

  /**
   * A request body that is a non-empty JSON value other than an object
   * cannot be unpacked into the envelope and is an Internal Server Error.
   */
  lemma NonObjectBody(env: Env, request: Value, path: string, requestId: string, st: Store)
    requires Truthy(request) && !request.VDict? && Strip(path) == "method"
    ensures DoPost(env, Some(request), path, requestId, st).body == Error(VStr("Internal Server Error"), InternalError)
  {
  }
}

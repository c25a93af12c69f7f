/**
 * Whole requests taken through the pipeline: the requests the repository's
 * integration tests send, followed from the decoded body to the reply.
 */
module Scenarios {
  import opened Results
  import opened Values
  import Dicts
  import opened Fields
  import opened Schemas
  import opened Requests
  import opened Runtime
  import opened Store
  import opened Scoring
  import opened Handler

  /** The arguments of the score requests in the tests: a phone and an email. */
  function ContactArguments(): Value {
    VDict([(VStr("phone"), VStr("79175002040")), (VStr("email"), VStr("stupnikov@otus.ru"))])
  }

  function ContactKwargs(): map<string, Value> {
    map["phone" := VStr("79175002040"), "email" := VStr("stupnikov@otus.ru")]
  }

  /** An `online_score` request for account `horns&hoofs`. */
  function ScoreRequest(login: string, token: string): Value {
    VDict([ (VStr("account"), VStr("horns&hoofs")),
            (VStr("login"), VStr(login)),
            (VStr("method"), VStr("online_score")),
            (VStr("token"), VStr(token)),
            (VStr("arguments"), ContactArguments()) ])
  }

  /** The five envelope names are different strings. */
  lemma EnvelopeNamesDiffer()
    ensures "account" != "login" && "account" != "method" && "account" != "token" && "account" != "arguments"
    ensures "login" != "method" && "login" != "token" && "login" != "arguments"
    ensures "method" != "token" && "method" != "arguments" && "token" != "arguments"
  {
    assert "login"[0] == 'l' && "token"[0] == 't';
  }

  /** The keyword arguments `ScoreRequest` unpacks to, written in the order unpacking adds them, last entry first. */
  function ScoreRequestKwargs(login: string, token: string): map<string, Value> {
    map["arguments" := ContactArguments(), "token" := VStr(token), "method" := VStr("online_score"),
        "login" := VStr(login), "account" := VStr("horns&hoofs")]
  }

  lemma ContactArgumentsUnpack()
    ensures Dicts.Kwargs(ContactArguments()) == Normal(ContactKwargs())
  {
    var d := ContactArguments().entries;
    Dicts.KwargsOfStrings(d);
    var d1 := d[1..];
    assert d1[1..] == [];
    assert Dicts.StringMap(d1) == map["email" := VStr("stupnikov@otus.ru")];
    assert Dicts.StringMap(d) == Dicts.StringMap(d1)["phone" := VStr("79175002040")];
    assert Dicts.StringMap(d).Keys == ContactKwargs().Keys;
    assert Dicts.StringMap(d) == ContactKwargs();
  }

  lemma ScoreRequestMap(login: string, token: string)
    ensures Dicts.AllStringKeys(ScoreRequest(login, token).entries)
    ensures Dicts.StringMap(ScoreRequest(login, token).entries) == ScoreRequestKwargs(login, token)
  {
    var d := ScoreRequest(login, token).entries;
    var d1, d2, d3, d4 := d[1..], d[2..], d[3..], d[4..];
    assert d4[1..] == [] && d3[1..] == d4 && d2[1..] == d3 && d1[1..] == d2 && d[1..] == d1;
    assert d4 == [(VStr("arguments"), ContactArguments())];
    assert Dicts.StringMap(d4[1..]) == map[];
    var m4 := Dicts.StringMap(d4);
    assert m4 == map["arguments" := ContactArguments()];
    var m3 := Dicts.StringMap(d3);
    assert m3 == m4["token" := VStr(token)];
    var m2 := Dicts.StringMap(d2);
    assert m2 == m3["method" := VStr("online_score")];
    var m1 := Dicts.StringMap(d1);
    assert m1 == m2["login" := VStr(login)];
    var m0 := Dicts.StringMap(d);
    assert m0 == m1["account" := VStr("horns&hoofs")];
  }

  lemma ScoreRequestUnpack(login: string, token: string)
    ensures Dicts.Kwargs(ScoreRequest(login, token)) == Normal(ScoreRequestKwargs(login, token))
  {
    ScoreRequestMap(login, token);
    Dicts.KwargsOfStrings(ScoreRequest(login, token).entries);
  }

  lemma ContactKeys()
    ensures Dicts.Keys(ContactArguments().entries) == [VStr("phone"), VStr("email")]
  {
    var ks := Dicts.Keys(ContactArguments().entries);
    assert ks[0] == VStr("phone") && ks[1] == VStr("email");
  }

  /** The test's contact arguments make a valid payload holding the phone and the email. */
  lemma ContactPayload(today: Dates.Date, maxAge: int)
    ensures Construct(OnlineScoreSchema(today, maxAge), ContactKwargs()).Ok?
    ensures ApplicantOf(Construct(OnlineScoreSchema(today, maxAge), ContactKwargs()).value)
            == Applicant(VStr("79175002040"), VStr("stupnikov@otus.ru"), VNone, VNone, VNone, VNone)
  {
    var kw := ContactKwargs();
    ContactAccepted(today, maxAge);
    OnlineScoreSpec(today, maxAge, kw);
    OnlineScoreValues(today, maxAge, kw);
  }

  lemma ContactAccepted(today: Dates.Date, maxAge: int)
    ensures && Accepts(CharField(false, true), ContactKwargs(), "first_name")
            && Accepts(CharField(false, true), ContactKwargs(), "last_name")
            && Accepts(EmailField(false, true), ContactKwargs(), "email")
            && Accepts(PhoneField(false, true), ContactKwargs(), "phone")
            && Accepts(BirthDayField(false, true, today, maxAge), ContactKwargs(), "birthday")
            && Accepts(GenderField(false, true), ContactKwargs(), "gender")
  {
    var kw := ContactKwargs();
    PhoneRule(false, true, kw["phone"]);
    assert kw["email"].s[9] == '@';
    EmailRule(false, true, kw["email"]);
  }

  /** The envelope of a score request is valid and holds what was sent. */
  lemma ScoreEnvelope(login: string, token: string)
    ensures Construct(MethodSchema(), ScoreRequestKwargs(login, token)) == Ok(ScoreRequestKwargs(login, token))
  {
    var kw := ScoreRequestKwargs(login, token);
    MethodSpec(kw);
    var r := Construct(MethodSchema(), kw).value;
    assert r.Keys == kw.Keys;
    assert r == kw;
  }

  /** The envelope of the tests' score request, as the handlers receive it. */
  lemma ContactScoreArguments(login: string, token: string)
    ensures Dicts.Kwargs(Attr(ScoreRequestKwargs(login, token), "arguments")) == Normal(ContactKwargs())
    ensures Dicts.Keys(Attr(ScoreRequestKwargs(login, token), "arguments").entries) == [VStr("phone"), VStr("email")]
  {
    ContactArgumentsUnpack();
    ContactKeys();
  }

  lemma AdminPayload(env: Env, ctx: Context, st: Store)
    ensures var token := env.sha512(env.hour + env.adminSalt);
            OnlineScoreHandler(env, ScoreRequestKwargs(env.adminLogin, token), ctx, st)
            == Normal(Handled(ScoreResponse(VInt(42)), OK, ctx["has" := VList([VStr("phone"), VStr("email")])], st))
  {
    var token := env.sha512(env.hour + env.adminSalt);
    var req := ScoreRequestKwargs(env.adminLogin, token);
    EnvelopeNamesDiffer();
    assert IsAdmin(req, env.adminLogin);
    ContactScoreArguments(env.adminLogin, token);
    ContactPayload(env.today, env.maxAge);
    var rec := Construct(OnlineScoreSchema(env.today, env.maxAge), ContactKwargs()).value;
    OnlineScoreAnswer(env, req, ctx, st, ContactKwargs(), rec);
  }

  /** The administrator's score request with the current hour's token is answered 42. */
  lemma AdminScoreRequest(env: Env, ctx: Context, st: Store)
    ensures var token := env.sha512(env.hour + env.adminSalt);
            MethodHandler(env, ScoreRequest(env.adminLogin, token), ctx, st)
            == Normal(Handled(ScoreResponse(VInt(42)), OK,
                              ctx["has" := VList([VStr("phone"), VStr("email")])], st))
  {
    var token := env.sha512(env.hour + env.adminSalt);
    var kw := ScoreRequestKwargs(env.adminLogin, token);
    EnvelopeNamesDiffer();
    assert CheckAuth(env, kw) == Normal(true);
    assert Route(env, kw, ctx, st) == OnlineScoreHandler(env, kw, ctx, st);
    ScoreRequestUnpack(env.adminLogin, token);
    ScoreEnvelope(env.adminLogin, token);
    AuthenticatedRouted(env, ScoreRequest(env.adminLogin, token), ctx, st, kw, kw);
    AdminPayload(env, ctx, st);
  }

  lemma UserPayload(env: Env, ctx: Context)
    requires env.adminLogin != "h&f"
    ensures var token := env.sha512("horns&hoofs" + "h&f" + env.salt);
            var applicant := Applicant(VStr("79175002040"), VStr("stupnikov@otus.ru"), VNone, VNone, VNone, VNone);
            OnlineScoreHandler(env, ScoreRequestKwargs("h&f", token), ctx, Store(map[], true))
            == Normal(Handled(ScoreResponse(VFloat(3.0)), OK,
                              ctx["has" := VList([VStr("phone"), VStr("email")])],
                              Store(map[ScoreKey(env, applicant) := VFloat(3.0)], true)))
  {
    var token := env.sha512("horns&hoofs" + "h&f" + env.salt);
    var req := ScoreRequestKwargs("h&f", token);
    EnvelopeNamesDiffer();
    assert !IsAdmin(req, env.adminLogin);
    ContactScoreArguments("h&f", token);
    ContactPayload(env.today, env.maxAge);
    ContactScore(env);
    var rec := Construct(OnlineScoreSchema(env.today, env.maxAge), ContactKwargs()).value;
    OnlineScoreAnswer(env, req, ctx, Store(map[], true), ContactKwargs(), rec);
  }

  /** Scoring the tests' contacts against an empty store: 3.0, written back. */
  lemma ContactScore(env: Env)
    ensures var applicant := Applicant(VStr("79175002040"), VStr("stupnikov@otus.ru"), VNone, VNone, VNone, VNone);
            GetScore(env, Store(map[], true), applicant)
            == Normal((VFloat(3.0), Store(map[ScoreKey(env, applicant) := VFloat(3.0)], true)))
  {
  }

  /**
   * Another user's score request with a valid token, against an empty
   * store, is answered 3.0 (phone and email) and leaves that score cached.
   */
  lemma UserScoreRequest(env: Env, ctx: Context)
    requires env.adminLogin != "h&f"
    ensures var token := env.sha512("horns&hoofs" + "h&f" + env.salt);
            var applicant := Applicant(VStr("79175002040"), VStr("stupnikov@otus.ru"), VNone, VNone, VNone, VNone);
            MethodHandler(env, ScoreRequest("h&f", token), ctx, Store(map[], true))
            == Normal(Handled(ScoreResponse(VFloat(3.0)), OK,
                              ctx["has" := VList([VStr("phone"), VStr("email")])],
                              Store(map[ScoreKey(env, applicant) := VFloat(3.0)], true)))
  {
    var token := env.sha512("horns&hoofs" + "h&f" + env.salt);
    var kw := ScoreRequestKwargs("h&f", token);
    EnvelopeNamesDiffer();
    assert CheckAuth(env, kw) == Normal(true);
    assert Route(env, kw, ctx, Store(map[], true)) == OnlineScoreHandler(env, kw, ctx, Store(map[], true));
    ScoreRequestUnpack("h&f", token);
    ScoreEnvelope("h&f", token);
    AuthenticatedRouted(env, ScoreRequest("h&f", token), ctx, Store(map[], true), kw, kw);
    UserPayload(env, ctx);
  }

  lemma SlashedPath()
    ensures Strip("/method/") == "method"
  {
    assert "/method/" == "/" + ("method" + "/");
    StripLeftOf("/", "method/");
    StripRightOf("method", "/");
  }

  /** Over HTTP, the administrator's request sent to `/method/` gets `{"response": {"score": 42}, "code": 200}`. */
  lemma AdminScoreOverHttp(env: Env, requestId: string, st: Store)
    ensures var token := env.sha512(env.hour + env.adminSalt);
            DoPost(env, Some(ScoreRequest(env.adminLogin, token)), "/method/", requestId, st)
            == Reply(Answer(ScoreResponse(VInt(42)), OK), st)
  {
    AdminScoreRequest(env, map["request_id" := VStr(requestId)], st);
    SlashedPath();
  }

  /**
   * An empty request is Invalid Request when handed to the method handler
   * directly, but over HTTP an empty JSON object is falsy and is answered
   * OK with an empty response, before any handler runs.
   */
  lemma EmptyRequest(env: Env, ctx: Context, st: Store, requestId: string)
    ensures MethodHandler(env, VDict([]), ctx, st).Normal?
    ensures MethodHandler(env, VDict([]), ctx, st).value.code == InvalidRequest
    ensures DoPost(env, Some(VDict([])), "/method", requestId, st) == Reply(Answer(VDict([]), OK), st)
  {
    assert Dicts.Kwargs(VDict([])) == Normal(map[]);
    MethodSpec(map[]);
  }

  /** The interests the tests store for clients 1 and 2. */
  function PresetStore(one: string, two: string): Store {
    Store(map["i:1" := VStr(one), "i:2" := VStr(two)], true)
  }

  function InterestsArguments(): Value {
    VDict([(VStr("client_ids"), VList([VInt(1), VInt(2)]))])
  }

  lemma InterestsArgumentsUnpack()
    ensures Dicts.Kwargs(InterestsArguments()) == Normal(map["client_ids" := VList([VInt(1), VInt(2)])])
  {
    var d := InterestsArguments().entries;
    Dicts.KwargsOfStrings(d);
    assert d[1..] == [];
    assert Dicts.StringMap(d[1..]) == map[];
  }

  /** Clients 1 and 2 are looked up under `i:1` and `i:2`. */
  lemma PresetLookups(env: Env, one: string, two: string, a: Value, b: Value)
    requires |one| > 0 && |two| > 0 && env.jsonLoads(one) == Some(a) && env.jsonLoads(two) == Some(b)
    ensures InterestsOf(env, PresetStore(one, two), [VInt(1), VInt(2)]) == Normal([a, b])
  {
    var st := PresetStore(one, two);
    assert Text.NatText(1) == "1" && Text.NatText(2) == "2";
    assert InterestsKey(env, VInt(1)) == "i:1" && InterestsKey(env, VInt(2)) == "i:2";
    assert GetInterests(env, st, VInt(1)) == Normal(a);
    assert GetInterests(env, st, VInt(2)) == Normal(b);
    var r := InterestsOf(env, st, [VInt(1), VInt(2)]);
    assert r.Normal? && |r.value| == 2 && r.value[0] == a && r.value[1] == b;
    assert r.value == [a, b];
  }

  /**
   * A clients-interests request for ids 1 and 2 answers each id with what
   * its lookup gives, counts two clients and leaves the store as it was.
   */
  lemma InterestsRequest(env: Env, req: Record, ctx: Context, st: Store, a: Value, b: Value)
    requires Attr(req, "arguments") == InterestsArguments()
    requires InterestsOf(env, st, [VInt(1), VInt(2)]) == Normal([a, b])
    ensures ClientsInterestsHandler(env, req, ctx, st)
            == Normal(Handled(VDict([(VInt(1), a), (VInt(2), b)]), OK, ctx["nclients" := VInt(2)], st))
  {
    TwoClientsAnswer(a, b);
    var kw := map["client_ids" := VList([VInt(1), VInt(2)])];
    InterestsArgumentsUnpack();
    ClientsInterestsSpec(kw);
    var rec := Construct(ClientsInterestsSchema(), kw).value;
    assert ClientIds(rec) == [VInt(1), VInt(2)];
  }

  /** The answer for clients 1 and 2 lists each with its interests, in request order. */
  lemma TwoClientsAnswer(a: Value, b: Value)
    ensures Dicts.PutAll([], [VInt(1), VInt(2)], [a, b]) == [(VInt(1), a), (VInt(2), b)]
  {
    var ids := [VInt(1), VInt(2)];
    assert !Dicts.SameKey(ids[0], ids[1]);
    Dicts.PutAllDistinct([], ids, [a, b]);
    var z := Dicts.Zip(ids, [a, b]);
    assert z[0] == (VInt(1), a) && z[1] == (VInt(2), b);
  }

  /** With interests stored for clients 1 and 2, each id is answered with the decoding of its JSON. */
  lemma ClientsInterestsRequest(env: Env, req: Record, ctx: Context, one: string, two: string, a: Value, b: Value)
    requires Attr(req, "arguments") == InterestsArguments()
    requires |one| > 0 && |two| > 0 && env.jsonLoads(one) == Some(a) && env.jsonLoads(two) == Some(b)
    ensures ClientsInterestsHandler(env, req, ctx, PresetStore(one, two))
            == Normal(Handled(VDict([(VInt(1), a), (VInt(2), b)]), OK,
                              ctx["nclients" := VInt(2)], PresetStore(one, two)))
  {
    PresetLookups(env, one, two, a, b);
    InterestsRequest(env, req, ctx, PresetStore(one, two), a, b);
  }

  /** With nothing stored, both clients are answered with an empty list, and the store stays empty. */
  lemma UnknownClientsRequest(env: Env, req: Record, ctx: Context)
    requires Attr(req, "arguments") == InterestsArguments()
    ensures ClientsInterestsHandler(env, req, ctx, Store(map[], true))
            == Normal(Handled(VDict([(VInt(1), VList([])), (VInt(2), VList([]))]), OK,
                              ctx["nclients" := VInt(2)], Store(map[], true)))
  {
    var st := Store(map[], true);
    var r := InterestsOf(env, st, [VInt(1), VInt(2)]);
    assert r.Normal? && |r.value| == 2 && r.value[0] == VList([]) && r.value[1] == VList([]);
    assert r.value == [VList([]), VList([])];
    InterestsRequest(env, req, ctx, st, VList([]), VList([]));
  }
}

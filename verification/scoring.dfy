/**
 * The scoring component: the cached applicant score and the per-client
 * interests lookup.
 */
module Scoring {
  import opened Results
  import opened Values
  import opened Runtime
  import opened Store

  /** The validated applicant data `get_score` is called with; each part may be null. */
  datatype Applicant = Applicant(
    phone: Value, email: Value, birthday: Value, gender: Value, firstName: Value, lastName: Value)

  /** `str(x or '')`: the text a key part contributes; nothing for a falsy value. */
  function Part(env: Env, x: Value): (t: string)
    ensures !Truthy(x) ==> t == ""
    ensures x.VStr? ==> t == x.s
  {
    PyStr(env, Or(x, VStr("")))
  }

  /**
   * The text hashed into the cache key: first name, last name, phone and
   * birthday, in that order, run together with no separator.
   */
  function KeyText(env: Env, a: Applicant): string {
    Part(env, a.firstName) + Part(env, a.lastName) + Part(env, a.phone) + Part(env, a.birthday)
  }

  /** Score cache entries are the keys starting `uid:`. */
  predicate IsScoreKey(k: string) {
    |k| >= 4 && k[..4] == "uid:"
  }

  /** `'uid:' + md5(key text)`. */
  function ScoreKey(env: Env, a: Applicant): (k: string)
    ensures IsScoreKey(k)
  {
    "uid:" + env.md5(KeyText(env, a))
  }

  /** The numeric value of a score. */
  function Points(score: Value): real {
    match score
    case VInt(i) => i as real
    case VFloat(f) => f
    case _ => 0.0
  }

  /**
   * The score computed from scratch: 1.5 for a phone, 1.5 for an email,
   * 1.5 for a birthday together with a gender, 0.5 for a first name
   * together with a last name, each counted only when truthy. The running
   * total starts as the integer 0 and becomes a float with the first
   * addition, so a score with no points is the integer 0.
   */
  function ComputeScore(a: Applicant): (r: Value)
    ensures r == VInt(0) <==> (&& !Truthy(a.phone) && !Truthy(a.email)
                               && !(Truthy(a.birthday) && Truthy(a.gender))
                               && !(Truthy(a.firstName) && Truthy(a.lastName)))
    ensures r != VInt(0) ==> r.VFloat? && 0.5 <= r.f <= 5.0
  {
    var total :=
      (if Truthy(a.phone) then 1.5 else 0.0)
      + (if Truthy(a.email) then 1.5 else 0.0)
      + (if Truthy(a.birthday) && Truthy(a.gender) then 1.5 else 0.0)
      + (if Truthy(a.firstName) && Truthy(a.lastName) then 0.5 else 0.0);
    if total == 0.0 then VInt(0) else VFloat(total)
  }

  /** The eight scores there are. */
  predicate IsScore(x: real) {
    x in {0.0, 0.5, 1.5, 2.0, 3.0, 3.5, 4.5, 5.0}
  }

  lemma ScoreValues(a: Applicant)
    ensures IsScore(Points(ComputeScore(a)))
  {
  }

  /**
   * The weight of each term: making a falsy phone or email truthy adds 1.5,
   * completing the birthday/gender pair adds 1.5, and completing the name
   * pair adds 0.5. A birthday without a gender, or a first name without a
   * last name, adds nothing. Together with the zero score for an applicant
   * with no term, this fixes every score.
   */
  lemma ScoreWeights(a: Applicant, x: Value)
    requires Truthy(x)
    ensures !Truthy(a.phone) ==> Points(ComputeScore(a.(phone := x))) == Points(ComputeScore(a)) + 1.5
    ensures !Truthy(a.email) ==> Points(ComputeScore(a.(email := x))) == Points(ComputeScore(a)) + 1.5
    ensures !Truthy(a.birthday) && Truthy(a.gender)
            ==> Points(ComputeScore(a.(birthday := x))) == Points(ComputeScore(a)) + 1.5
    ensures !Truthy(a.firstName) && Truthy(a.lastName)
            ==> Points(ComputeScore(a.(firstName := x))) == Points(ComputeScore(a)) + 0.5
    ensures !Truthy(a.gender) ==> Points(ComputeScore(a.(birthday := x))) == Points(ComputeScore(a))
    ensures !Truthy(a.lastName) ==> Points(ComputeScore(a.(firstName := x))) == Points(ComputeScore(a))
  {
  }

  /**
   * `get_score`: a truthy cached value under the applicant's key is
   * returned as a float without touching the store; otherwise the score is
   * computed and written back under that key. Store failures propagate,
   * and so does `float()` of a cached value that is not a number.
   */
  function GetScore(env: Env, st: Store, a: Applicant): (r: Flow<(Value, Store)>)
    ensures !st.reachable ==> r == Raised(ConnectionError)
    ensures (st.reachable && ScoreKey(env, a) in st.data && Truthy(st.data[ScoreKey(env, a)])) ==>
              && (r.Normal? <==> ToFloat(env, st.data[ScoreKey(env, a)]).Normal?)
              && (r.Normal? ==> r.value == (VFloat(ToFloat(env, st.data[ScoreKey(env, a)]).value), st))
    ensures (st.reachable && !(ScoreKey(env, a) in st.data && Truthy(st.data[ScoreKey(env, a)]))) ==>
              && r.Normal? && r.value.0 == ComputeScore(a)
              && r.value.1 == Store(st.data[ScoreKey(env, a) := ComputeScore(a)], true)
    ensures r.Normal? ==> r.value.0 == VInt(0) || r.value.0.VFloat?
  {
    var key := ScoreKey(env, a);
    match CacheGet(st, key)
    case Raised(e) => Raised(e)
    case Normal(cached) =>
      var score := Or(cached, VInt(0));
      if Truthy(score) then
        (match ToFloat(env, score)
         case Raised(e) => Raised(e)
         case Normal(f) => Normal((VFloat(f), st)))
      else
        var computed := ComputeScore(a);
        (match CacheSet(st, key, computed)
         case Raised(e) => Raised(e)
         case Normal(st') => Normal((computed, st')))
  }

  /**
   * Asking twice gives the same answer: after a call that returns, a second
   * call with the same applicant returns the same score and leaves the
   * store as the first call left it.
   */
  lemma GetScoreIdempotent(env: Env, st: Store, a: Applicant)
    requires GetScore(env, st, a).Normal?
    ensures GetScore(env, GetScore(env, st, a).value.1, a) == GetScore(env, st, a)
  {
    var key := ScoreKey(env, a);
    var (v, st1) := GetScore(env, st, a).value;
    if !(key in st.data && Truthy(st.data[key])) {
      assert st1.data[key] == ComputeScore(a);
      if ComputeScore(a) != VInt(0) {
        assert ToFloat(env, ComputeScore(a)) == Normal(ComputeScore(a).f);
      } else {
        assert st1.data[key := VInt(0)] == st1.data;
      }
    }
  }

  /**
   * On an empty store, a birthday with a gender and a full name score 2.0;
   * without the first name the score is 1.5, and asking again, now from
   * the cache, gives 1.5 again.
   */
  lemma FreshAndCachedScores(env: Env)
    ensures var full := Applicant(VNone, VNone, VStr("01.01.2000"), VInt(1), VStr("a"), VStr("b"));
            var first := GetScore(env, Store(map[], true), full);
            first.Normal? && first.value.0 == VFloat(2.0)
    ensures var noFirstName := Applicant(VNone, VNone, VStr("01.01.2000"), VInt(1), VNone, VStr("b"));
            var first := GetScore(env, Store(map[], true), noFirstName);
            && first.Normal? && first.value.0 == VFloat(1.5)
            && first.value.1.data[ScoreKey(env, noFirstName)] == VFloat(1.5)
            && GetScore(env, first.value.1, noFirstName) == Normal((VFloat(1.5), first.value.1))
  {
    var noFirstName := Applicant(VNone, VNone, VStr("01.01.2000"), VInt(1), VNone, VStr("b"));
    GetScoreIdempotent(env, Store(map[], true), noFirstName);
  }

  /** Gender 0 is falsy: it adds nothing, as if no birthday had been given. */
  lemma GenderZeroEarnsNothing(a: Applicant)
    requires a.gender == VInt(0)
    ensures ComputeScore(a) == ComputeScore(a.(birthday := VNone))
    ensures Truthy(a.phone) || Truthy(a.email) || (Truthy(a.firstName) && Truthy(a.lastName)) || ComputeScore(a) == VInt(0)
  {
  }

  /** The cache key does not depend on the email or the gender. */
  lemma KeyIgnoresEmailAndGender(env: Env, a: Applicant, email: Value, gender: Value)
    ensures ScoreKey(env, a.(email := email, gender := gender)) == ScoreKey(env, a)
  {
  }

  /**
   * Key parts are run together without a separator, so a first name `ab`
   * with no last name shares its key with first name `a`, last name `b`.
   */
  lemma KeyPartsRunTogether(env: Env, phone: Value, birthday: Value)
    ensures var one := Applicant(phone, VNone, birthday, VNone, VStr("ab"), VNone);
            var two := Applicant(phone, VNone, birthday, VNone, VStr("a"), VStr("b"));
            ScoreKey(env, one) == ScoreKey(env, two)
            && Points(ComputeScore(one)) != Points(ComputeScore(two))
  {
    var one := Applicant(phone, VNone, birthday, VNone, VStr("ab"), VNone);
    var two := Applicant(phone, VNone, birthday, VNone, VStr("a"), VStr("b"));
    var rest := Part(env, phone) + Part(env, birthday);
    assert Part(env, VStr("ab")) == "ab" && Part(env, VNone) == "";
    assert Part(env, VStr("a")) == "a" && Part(env, VStr("b")) == "b";
    assert KeyText(env, one) == "ab" + rest;
    assert KeyText(env, two) == "a" + "b" + rest;
    assert "a" + "b" == "ab";
  }

  /**
   * Because the key leaves out the email, a score cached for an applicant
   * with a phone and an email is served to the same phone without an
   * email, whose own score is lower.
   */
  lemma CachedScoreOutlivesItsInputs(env: Env)
    ensures var withEmail := Applicant(VStr("79175002040"), VStr("x@y.com"), VNone, VNone, VNone, VNone);
            var withoutEmail := withEmail.(email := VNone);
            var first := GetScore(env, Store(map[], true), withEmail);
            && first.Normal? && first.value.0 == VFloat(3.0)
            && GetScore(env, first.value.1, withoutEmail) == Normal((VFloat(3.0), first.value.1))
            && ComputeScore(withoutEmail) == VFloat(1.5)
  {
    var withEmail := Applicant(VStr("79175002040"), VStr("x@y.com"), VNone, VNone, VNone, VNone);
    KeyIgnoresEmailAndGender(env, withEmail, VNone, VNone);
  }

  /** `get_interests`: the key of a client. */
  function InterestsKey(env: Env, cid: Value): (k: string)
    ensures |k| >= 2 && k[..2] == "i:"
    ensures !IsScoreKey(k)
  {
    var k := "i:" + PyStr(env, cid);
    assert k[0] == 'i';
    k
  }

  /**
   * `get_interests`: the JSON stored under `i:<cid>` decoded, or an empty
   * list when nothing truthy is stored. Store failures propagate, and so do
   * decoding failures.
   */
  function GetInterests(env: Env, st: Store, cid: Value): (r: Flow<Value>)
    ensures !st.reachable ==> r == Raised(ConnectionError)
    ensures st.reachable && !(InterestsKey(env, cid) in st.data && Truthy(st.data[InterestsKey(env, cid)]))
            ==> r == Normal(VList([]))
    ensures st.reachable && InterestsKey(env, cid) in st.data && Truthy(st.data[InterestsKey(env, cid)])
            ==> r == JsonLoads(env, st.data[InterestsKey(env, cid)])
  {
    match Get(st, InterestsKey(env, cid))
    case Raised(e) => Raised(e)
    case Normal(stored) =>
      if Truthy(stored) then JsonLoads(env, stored) else Normal(VList([]))
  }

  /** Interests stored as JSON text under a client's key come back decoded. */
  lemma StoredInterests(env: Env, data: map<string, Value>, cid: Value, text: string, interests: Value)
    requires |text| > 0 && env.jsonLoads(text) == Some(interests)
    ensures GetInterests(env, Store(data[InterestsKey(env, cid) := VStr(text)], true), cid) == Normal(interests)
  {
  }

  /** An integer client id is looked up under its decimal form. */
  lemma IntegerClientKey(env: Env, n: int)
    ensures InterestsKey(env, VInt(n)) == "i:" + Text.DecimalText(n)
  {
  }

  /**
   * The interests of each client in turn, as the comprehension evaluates
   * them: the first lookup that raises ends the batch with its exception.
   */
  function InterestsOf(env: Env, st: Store, ids: seq<Value>): (r: Flow<seq<Value>>)
    ensures r.Normal? <==> forall i :: 0 <= i < |ids| ==> GetInterests(env, st, ids[i]).Normal?
    ensures r.Normal? ==> |r.value| == |ids|
                          && forall i :: 0 <= i < |ids| ==> r.value[i] == GetInterests(env, st, ids[i]).value
    ensures r.Raised? ==> exists i :: && 0 <= i < |ids| && GetInterests(env, st, ids[i]) == Raised(r.exc)
                                      && forall j :: 0 <= j < i ==> GetInterests(env, st, ids[j]).Normal?
  {
    if |ids| == 0 then Normal([])
    else
      match GetInterests(env, st, ids[0])
      case Raised(e) => Raised(e)
      case Normal(v) =>
        match InterestsOf(env, st, ids[1..])
        case Raised(e) =>
          (var i :| && 0 <= i < |ids[1..]| && GetInterests(env, st, ids[1..][i]) == Raised(e)
                    && forall j :: 0 <= j < i ==> GetInterests(env, st, ids[1..][j]).Normal?;
           assert GetInterests(env, st, ids[i + 1]) == Raised(e);
           assert forall j :: 0 <= j < i + 1 ==> GetInterests(env, st, ids[j]).Normal? by {
             forall j | 0 <= j < i + 1
               ensures GetInterests(env, st, ids[j]).Normal?
             {
               if j > 0 {
                 assert ids[j] == ids[1..][j - 1];
               }
             }
           }
           Raised(e))
        case Normal(vs) =>
          assert forall i :: 1 <= i < |ids| ==> ids[i] == ids[1..][i - 1];
          Normal([v] + vs)
  }
}

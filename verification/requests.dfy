/**
 * The three request schemas of the scoring API: the method envelope, the
 * online-score payload with its pair rule, and the clients-interests payload.
 */
module Requests {
  import opened Results
  import opened Values
  import opened Fields
  import opened Schemas
  import Dates

  function NoRule(record: Record): Option<string> {
    None
  }

  /** `client_ids` (required, not nullable) and an optional, nullable `date`. */
  function ClientsInterestsSchema(): (s: Schema)
    ensures DistinctNames(s.fields)
    ensures forall rec :: s.rule(rec).None?
  {
    var fs := [ ("client_ids", ClientIdsField(true, false)),
                ("date", DateField(false, true)) ];
    assert fs[0].0 == "client_ids" && fs[1].0 == "date";
    Schema(fs, NoRule)
  }

  /**
   * Six optional, nullable fields. Birthdays are judged as of `today`
   * against the age limit `maxAge`.
   */
  function OnlineScoreSchema(today: Dates.Date, maxAge: int): (s: Schema)
    ensures DistinctNames(s.fields)
    ensures forall rec :: s.rule(rec).None? <==> HasPair(rec)
  {
    var fs := [ ("first_name", CharField(false, true)),
                ("last_name", CharField(false, true)),
                ("email", EmailField(false, true)),
                ("phone", PhoneField(false, true)),
                ("birthday", BirthDayField(false, true, today, maxAge)),
                ("gender", GenderField(false, true)) ];
    assert fs[0].0 == "first_name" && fs[1].0 == "last_name" && fs[2].0 == "email";
    assert fs[3].0 == "phone" && fs[4].0 == "birthday" && fs[5].0 == "gender";
    Schema(fs, PairRule)
  }

  /** The envelope of every request. */
  function MethodSchema(): (s: Schema)
    ensures DistinctNames(s.fields)
    ensures forall rec :: s.rule(rec).None?
  {
    var fs := [ ("account", CharField(false, true)),
                ("login", CharField(true, true)),
                ("token", CharField(true, true)),
                ("arguments", ArgumentsField(true, true)),
                ("method", CharField(true, false)) ];
    assert fs[0].0 == "account" && fs[1].0 == "login" && fs[2].0 == "token";
    assert fs[3].0 == "arguments" && fs[4].0 == "method";
    Schema(fs, NoRule)
  }

  /** The field holds a non-null value. */
  predicate Filled(record: Record, name: string) {
    name in record && record[name] != VNone
  }

  /** At least one of the three pairs has both members non-null. */
  predicate HasPair(record: Record) {
    || (Filled(record, "first_name") && Filled(record, "last_name"))
    || (Filled(record, "email") && Filled(record, "phone"))
    || (Filled(record, "birthday") && Filled(record, "gender"))
  }

  const PairMissing := "at least one pair of first_name/last_name, email/phone, birthday/gender must be non-null"

  function PairRule(record: Record): Option<string> {
    if HasPair(record) then None else Some(PairMissing)
  }

  /** `is_admin`: the login is the administrator's; a missing or null login never is. */
  predicate IsAdmin(request: Record, adminLogin: string)
    ensures ("login" !in request || request["login"] == VNone) ==> !IsAdmin(request, adminLogin)
    ensures "login" in request && request["login"].VStr? && request["login"].s != adminLogin
            ==> !IsAdmin(request, adminLogin)
  {
    "login" in request && request["login"] == VStr(adminLogin)
  }

  /**
   * Only the login decides `is_admin`: a missing or null login is never the
   * administrator's, records that agree on `login` agree on `is_admin`, and
   * a record is the administrator's for one login at most.
   */
  lemma AdminByLoginOnly(r1: Record, r2: Record, adminLogin: string, other: string)
    ensures ("login" !in r1 || r1["login"] == VNone) ==> !IsAdmin(r1, adminLogin)
    ensures ("login" in r1 <==> "login" in r2) && ("login" in r1 ==> r1["login"] == r2["login"])
            ==> (IsAdmin(r1, adminLogin) <==> IsAdmin(r2, adminLogin))
    ensures IsAdmin(r1, adminLogin) && IsAdmin(r1, other) ==> adminLogin == other
  {
  }

  /** A keyword argument accepted by a field: absent (if optional), null (if nullable), or a valid value. */
  predicate Accepts(f: Field, args: map<string, Value>, name: string) {
    Assign(f, InputFor(args, name)).Ok?
  }

  /** The argument was supplied and is not null. */
  predicate Supplied(args: map<string, Value>, name: string) {
    name in args && args[name] != VNone
  }

  /** A field's stored value is null exactly when its argument was not supplied. */
  lemma StoredValue(f: Field, args: map<string, Value>, name: string)
    requires Accepts(f, args, name)
    ensures (Assign(f, InputFor(args, name)).value != VNone) <==> Supplied(args, name)
  {
  }

  lemma OnlineScoreFieldsAccept(today: Dates.Date, maxAge: int, args: map<string, Value>)
    ensures AllAssign(OnlineScoreSchema(today, maxAge).fields, args)
            <==> && Accepts(CharField(false, true), args, "first_name")
                 && Accepts(CharField(false, true), args, "last_name")
                 && Accepts(EmailField(false, true), args, "email")
                 && Accepts(PhoneField(false, true), args, "phone")
                 && Accepts(BirthDayField(false, true, today, maxAge), args, "birthday")
                 && Accepts(GenderField(false, true), args, "gender")
  {
    var fs := OnlineScoreSchema(today, maxAge).fields;
    assert AllAssign(fs, args) <==>
      && Outcome(fs[0], args).Ok? && Outcome(fs[1], args).Ok? && Outcome(fs[2], args).Ok?
      && Outcome(fs[3], args).Ok? && Outcome(fs[4], args).Ok? && Outcome(fs[5], args).Ok?;
  }

  lemma OnlineScoreRecord(today: Dates.Date, maxAge: int, args: map<string, Value>)
    requires AllAssign(OnlineScoreSchema(today, maxAge).fields, args)
    ensures HasPair(Collect(OnlineScoreSchema(today, maxAge).fields, args))
            <==> || (Supplied(args, "first_name") && Supplied(args, "last_name"))
                 || (Supplied(args, "email") && Supplied(args, "phone"))
                 || (Supplied(args, "birthday") && Supplied(args, "gender"))
  {
    var fs := OnlineScoreSchema(today, maxAge).fields;
    OnlineScoreNames(today, maxAge);
    CollectContents(fs, args);
    FilledIffSupplied(fs, args, 0);
    FilledIffSupplied(fs, args, 1);
    FilledIffSupplied(fs, args, 2);
    FilledIffSupplied(fs, args, 3);
    FilledIffSupplied(fs, args, 4);
    FilledIffSupplied(fs, args, 5);
  }

  lemma FilledIffSupplied(fs: seq<(string, Field)>, args: map<string, Value>, i: int)
    requires 0 <= i < |fs| && DistinctNames(fs) && AllAssign(fs, args)
    ensures Filled(Collect(fs, args), fs[i].0) <==> Supplied(args, fs[i].0)
  {
    CollectContents(fs, args);
    assert Outcome(fs[i], args).Ok?;
    StoredValue(fs[i].1, args, fs[i].0);
  }

  /**
   * The online-score payload is built exactly when each of the six fields
   * accepts its argument and one of the pairs (first_name, last_name),
   * (email, phone), (birthday, gender) is supplied in full, non-null.
   */
  lemma OnlineScoreSpec(today: Dates.Date, maxAge: int, args: map<string, Value>)
    ensures Construct(OnlineScoreSchema(today, maxAge), args).Ok?
            <==> && Accepts(CharField(false, true), args, "first_name")
                 && Accepts(CharField(false, true), args, "last_name")
                 && Accepts(EmailField(false, true), args, "email")
                 && Accepts(PhoneField(false, true), args, "phone")
                 && Accepts(BirthDayField(false, true, today, maxAge), args, "birthday")
                 && Accepts(GenderField(false, true), args, "gender")
                 && (|| (Supplied(args, "first_name") && Supplied(args, "last_name"))
                     || (Supplied(args, "email") && Supplied(args, "phone"))
                     || (Supplied(args, "birthday") && Supplied(args, "gender")))
  {
    var s := OnlineScoreSchema(today, maxAge);
    OnlineScoreNames(today, maxAge);
    ConstructSpec(s, args);
    OnlineScoreFieldsAccept(today, maxAge, args);
    if AllAssign(s.fields, args) {
      OnlineScoreRecord(today, maxAge, args);
    }
  }

  /** A constructed payload holds each argument as supplied, null for the ones left out. */
  lemma OnlineScoreValues(today: Dates.Date, maxAge: int, args: map<string, Value>)
    requires Construct(OnlineScoreSchema(today, maxAge), args).Ok?
    ensures var r := Construct(OnlineScoreSchema(today, maxAge), args).value;
            && r.Keys == {"first_name", "last_name", "email", "phone", "birthday", "gender"}
            && forall name :: name in r ==> r[name] == (if name in args then args[name] else VNone)
  {
    OnlineScoreNames(today, maxAge);
    ConstructValues(OnlineScoreSchema(today, maxAge), args);
  }

  /** The online-score request's six field names, in declaration order. */
  lemma OnlineScoreNames(today: Dates.Date, maxAge: int)
    ensures var fs := OnlineScoreSchema(today, maxAge).fields;
            && |fs| == 6 && fs[0].0 == "first_name" && fs[1].0 == "last_name" && fs[2].0 == "email"
            && fs[3].0 == "phone" && fs[4].0 == "birthday" && fs[5].0 == "gender"
            && Names(fs) == {"first_name", "last_name", "email", "phone", "birthday", "gender"}
  {
    var fs := OnlineScoreSchema(today, maxAge).fields;
    assert fs[0].0 == "first_name" && fs[1].0 == "last_name" && fs[2].0 == "email";
    assert fs[3].0 == "phone" && fs[4].0 == "birthday" && fs[5].0 == "gender";
  }

  /** No arguments at all, or all six null, never make a payload. */
  lemma OnlineScoreNeedsAPair(today: Dates.Date, maxAge: int)
    ensures Construct(OnlineScoreSchema(today, maxAge), map[]).Err?
    ensures Construct(OnlineScoreSchema(today, maxAge),
                      map["first_name" := VNone, "last_name" := VNone, "email" := VNone,
                          "phone" := VNone, "birthday" := VNone, "gender" := VNone]).Err?
  {
    OnlineScoreSpec(today, maxAge, map[]);
    OnlineScoreSpec(today, maxAge,
                    map["first_name" := VNone, "last_name" := VNone, "email" := VNone,
                        "phone" := VNone, "birthday" := VNone, "gender" := VNone]);
  }

  /** What a char field accepts, by presence and nullability. */
  lemma CharAccepts(required: bool, nullable: bool, args: map<string, Value>, name: string)
    ensures Accepts(CharField(required, nullable), args, name)
            <==> if name in args then (args[name] == VNone && nullable) || args[name].VStr?
                 else !required
  {
    if name in args && args[name] != VNone {
      CharRule(required, nullable, args[name]);
    }
  }

  /** What an arguments field accepts, by presence and nullability. */
  lemma ArgumentsAccepts(required: bool, nullable: bool, args: map<string, Value>, name: string)
    ensures Accepts(ArgumentsField(required, nullable), args, name)
            <==> if name in args then (args[name] == VNone && nullable) || args[name].VDict?
                 else !required
  {
    if name in args && args[name] != VNone {
      ArgumentsRule(required, nullable, args[name]);
    }
  }

  lemma MethodFieldsAccept(args: map<string, Value>)
    ensures AllAssign(MethodSchema().fields, args)
            <==> && ("account" in args ==> args["account"] == VNone || args["account"].VStr?)
                 && "login" in args && (args["login"] == VNone || args["login"].VStr?)
                 && "token" in args && (args["token"] == VNone || args["token"].VStr?)
                 && "arguments" in args && (args["arguments"] == VNone || args["arguments"].VDict?)
                 && "method" in args && args["method"].VStr?
  {
    var fs := MethodSchema().fields;
    assert AllAssign(fs, args) <==>
      && Outcome(fs[0], args).Ok? && Outcome(fs[1], args).Ok? && Outcome(fs[2], args).Ok?
      && Outcome(fs[3], args).Ok? && Outcome(fs[4], args).Ok?;
    CharAccepts(false, true, args, "account");
    CharAccepts(true, true, args, "login");
    CharAccepts(true, true, args, "token");
    ArgumentsAccepts(true, true, args, "arguments");
    CharAccepts(true, false, args, "method");
  }

  /** The envelope's five field names, in declaration order. */
  lemma MethodNames()
    ensures var fs := MethodSchema().fields;
            && |fs| == 5 && fs[0].0 == "account" && fs[1].0 == "login" && fs[2].0 == "token"
            && fs[3].0 == "arguments" && fs[4].0 == "method"
            && Names(fs) == {"account", "login", "token", "arguments", "method"}
  {
    var fs := MethodSchema().fields;
    assert fs[0].0 == "account" && fs[1].0 == "login" && fs[2].0 == "token";
    assert fs[3].0 == "arguments" && fs[4].0 == "method";
  }

  /** The envelope's four required fields are present whenever every field accepts its argument. */
  lemma RequiredPresent(args: map<string, Value>)
    requires AllAssign(MethodSchema().fields, args)
    ensures "login" in args && "token" in args && "arguments" in args && "method" in args
  {
    MethodFieldsAccept(args);
  }

  lemma MethodRecord(args: map<string, Value>)
    requires AllAssign(MethodSchema().fields, args)
    ensures "login" in args && "token" in args && "arguments" in args && "method" in args
    ensures var r := Collect(MethodSchema().fields, args);
            && r.Keys == {"account", "login", "token", "arguments", "method"}
            && r["account"] == (if "account" in args then args["account"] else VNone)
            && r["login"] == args["login"] && r["token"] == args["token"]
            && r["arguments"] == args["arguments"] && r["method"] == args["method"]
  {
    MethodNames();
    RequiredPresent(args);
    CollectValues(MethodSchema().fields, args);
    var r := Collect(MethodSchema().fields, args);
    assert "account" in r && "login" in r && "token" in r && "arguments" in r && "method" in r;
  }

  /**
   * The envelope is built exactly when `login`, `token` and `arguments` are
   * present (each possibly null), `method` is a string (possibly empty), and
   * `account`, which may be omitted, is a string or null when given. The
   * record then holds the five values as supplied, `account` null when omitted.
   */
  lemma MethodSpec(args: map<string, Value>)
    ensures Construct(MethodSchema(), args).Ok?
            <==> && ("account" in args ==> args["account"] == VNone || args["account"].VStr?)
                 && "login" in args && (args["login"] == VNone || args["login"].VStr?)
                 && "token" in args && (args["token"] == VNone || args["token"].VStr?)
                 && "arguments" in args && (args["arguments"] == VNone || args["arguments"].VDict?)
                 && "method" in args && args["method"].VStr?
    ensures Construct(MethodSchema(), args).Ok? ==>
              var r := Construct(MethodSchema(), args).value;
              && r.Keys == {"account", "login", "token", "arguments", "method"}
              && r["account"] == (if "account" in args then args["account"] else VNone)
              && r["login"] == args["login"] && r["token"] == args["token"]
              && r["arguments"] == args["arguments"] && r["method"] == args["method"]
  {
    var s := MethodSchema();
    MethodNames();
    ConstructSpec(s, args);
    MethodFieldsAccept(args);
    if AllAssign(s.fields, args) {
      MethodRecord(args);
    }
  }

  /** None of the three schemas' rules rejects without a reason. */
  lemma RulesGiveReasons(today: Dates.Date, maxAge: int)
    ensures forall rec :: MethodSchema().rule(rec).Some? ==> |MethodSchema().rule(rec).value| > 0
    ensures forall rec :: OnlineScoreSchema(today, maxAge).rule(rec).Some?
                          ==> |OnlineScoreSchema(today, maxAge).rule(rec).value| > 0
    ensures forall rec :: ClientsInterestsSchema().rule(rec).Some? ==> |ClientsInterestsSchema().rule(rec).value| > 0
  {
    assert |PairMissing| > 0;
  }

  /** A request any of the three schemas refuses is refused with a non-empty message. */
  lemma SchemaErrorsHaveText(today: Dates.Date, maxAge: int, args: map<string, Value>)
    ensures Construct(MethodSchema(), args).Err?
            ==> |ErrorText(Construct(MethodSchema(), args).error)| > 0
    ensures Construct(OnlineScoreSchema(today, maxAge), args).Err?
            ==> |ErrorText(Construct(OnlineScoreSchema(today, maxAge), args).error)| > 0
    ensures Construct(ClientsInterestsSchema(), args).Err?
            ==> |ErrorText(Construct(ClientsInterestsSchema(), args).error)| > 0
  {
    RulesGiveReasons(today, maxAge);
    if Construct(MethodSchema(), args).Err? {
      ErrorTextNonEmpty(MethodSchema(), args);
    }
    if Construct(OnlineScoreSchema(today, maxAge), args).Err? {
      ErrorTextNonEmpty(OnlineScoreSchema(today, maxAge), args);
    }
    if Construct(ClientsInterestsSchema(), args).Err? {
      ErrorTextNonEmpty(ClientsInterestsSchema(), args);
    }
  }

  /**
   * The clients-interests payload is built exactly when `client_ids` is a
   * non-empty list of numbers and `date`, if given and not null, is a real
   * day written `DD.MM.YYYY`.
   */
  lemma ClientsInterestsSpec(args: map<string, Value>)
    ensures Construct(ClientsInterestsSchema(), args).Ok?
            <==> && "client_ids" in args && IsClientIds(args["client_ids"])
                 && ("date" in args ==> args["date"] == VNone || IsDateText(args["date"]))
    ensures Construct(ClientsInterestsSchema(), args).Ok? ==>
              Construct(ClientsInterestsSchema(), args).value["client_ids"] == args["client_ids"]
  {
    var s := ClientsInterestsSchema();
    ConstructSpec(s, args);
    NoFailuresIffAllAssign(s.fields, args);
    assert AllAssign(s.fields, args) <==>
      forall i :: 0 <= i < 2 ==> Outcome(s.fields[i], args).Ok?;
    assert s.fields[0].0 == "client_ids";
  }
}

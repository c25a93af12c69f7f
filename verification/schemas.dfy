/**
 * Schemas: a fixed, ordered table of named fields plus a schema-level
 * validation rule. Constructing a schema instance from keyword arguments
 * assigns every declared field, collects one error line per failing field,
 * and runs the schema rule only when every field passed.
 */
module Schemas {
  import opened Results
  import opened Values
  import opened Fields

  /** The validated values of a constructed instance, by field name. */
  type Record = map<string, Value>

  datatype Schema = Schema(fields: seq<(string, Field)>, rule: Record -> Option<string>)

  datatype Failure = Failure(name: string, error: FieldError)

  datatype SchemaError =
    | NoFields
    | InvalidFields(failures: seq<Failure>)
    | Rejected(reason: string)

  /** Declared field names are distinct, as class attribute names are. */
  predicate DistinctNames(fields: seq<(string, Field)>) {
    forall i, j :: 0 <= i < j < |fields| ==> fields[i].0 != fields[j].0
  }

  function Names(fields: seq<(string, Field)>): set<string> {
    set i | 0 <= i < |fields| :: fields[i].0
  }

  /** The input a field receives: the keyword argument of its name, if supplied. */
  function InputFor(args: map<string, Value>, name: string): Input {
    if name in args then Given(args[name]) else Missing
  }

  function Outcome(field: (string, Field), args: map<string, Value>): Result<Value, FieldError> {
    Assign(field.1, InputFor(args, field.0))
  }

  predicate AllAssign(fields: seq<(string, Field)>, args: map<string, Value>) {
    forall i :: 0 <= i < |fields| ==> Outcome(fields[i], args).Ok?
  }

  /** The failing fields with their errors, in declaration order; nothing short-circuits. */
  function Failures(fields: seq<(string, Field)>, args: map<string, Value>): seq<Failure> {
    if |fields| == 0 then []
    else
      var rest := Failures(fields[1..], args);
      match Outcome(fields[0], args)
      case Ok(_) => rest
      case Err(e) => [Failure(fields[0].0, e)] + rest
  }

  /** The stored value of every field, null for a field that failed. */
  function Collect(fields: seq<(string, Field)>, args: map<string, Value>): Record {
    if |fields| == 0 then map[]
    else
      var v := match Outcome(fields[0], args) case Ok(v) => v case Err(_) => VNone;
      Collect(fields[1..], args)[fields[0].0 := v]
  }

  /**
   * Constructing an instance of `schema` from keyword arguments. A built
   * record satisfies the schema rule; a field error reports at least one
   * failing field, and a rejection carries the rule's reason.
   */
  function Construct(schema: Schema, args: map<string, Value>): (r: Result<Record, SchemaError>)
    ensures r.Ok? ==> |schema.fields| > 0 && schema.rule(r.value).None?
    ensures r.Err? && r.error.InvalidFields? ==> |r.error.failures| > 0
    ensures r.Err? && r.error.Rejected? ==> schema.rule(Collect(schema.fields, args)) == Some(r.error.reason)
  {
    if |schema.fields| == 0 then Err(NoFields)
    else
      var failures := Failures(schema.fields, args);
      if |failures| > 0 then Err(InvalidFields(failures))
      else
        var record := Collect(schema.fields, args);
        match schema.rule(record)
        case Some(reason) => Err(Rejected(reason))
        case None => Ok(record)
  }

  /** Every error line names a declared field that failed, with that field's error. */
  lemma {:induction false} FailuresSound(fields: seq<(string, Field)>, args: map<string, Value>)
    ensures |Failures(fields, args)| <= |fields|
    ensures forall k :: 0 <= k < |Failures(fields, args)| ==>
              exists i :: 0 <= i < |fields| && fields[i].0 == Failures(fields, args)[k].name
                          && Outcome(fields[i], args) == Err(Failures(fields, args)[k].error)
  {
    if |fields| > 0 {
      FailuresSound(fields[1..], args);
      var fs := Failures(fields, args);
      var rest := Failures(fields[1..], args);
      forall k | 0 <= k < |fs|
        ensures exists i :: 0 <= i < |fields| && fields[i].0 == fs[k].name
                            && Outcome(fields[i], args) == Err(fs[k].error)
      {
        if Outcome(fields[0], args).Err? {
          if k > 0 {
            assert fs[k] == rest[k - 1];
            var i :| 0 <= i < |fields[1..]| && fields[1..][i].0 == rest[k - 1].name
                     && Outcome(fields[1..][i], args) == Err(rest[k - 1].error);
            assert fields[i + 1] == fields[1..][i];
          } else {
            assert fields[0].0 == fs[0].name;
          }
        } else {
          var i :| 0 <= i < |fields[1..]| && fields[1..][i].0 == rest[k].name
                   && Outcome(fields[1..][i], args) == Err(rest[k].error);
          assert fields[i + 1] == fields[1..][i];
        }
      }
    }
  }

  /** Every failing field has an error line of its own. */
  lemma {:induction false} FailuresComplete(fields: seq<(string, Field)>, args: map<string, Value>, i: int)
    requires 0 <= i < |fields| && Outcome(fields[i], args).Err?
    ensures exists k :: 0 <= k < |Failures(fields, args)|
              && Failures(fields, args)[k] == Failure(fields[i].0, Outcome(fields[i], args).error)
  {
    var fs := Failures(fields, args);
    if i == 0 {
      assert fs[0] == Failure(fields[0].0, Outcome(fields[0], args).error);
    } else {
      assert fields[1..][i - 1] == fields[i];
      FailuresComplete(fields[1..], args, i - 1);
      var rest := Failures(fields[1..], args);
      var k :| 0 <= k < |rest| && rest[k] == Failure(fields[i].0, Outcome(fields[i], args).error);
      if Outcome(fields[0], args).Err? {
        assert fs[k + 1] == rest[k];
      } else {
        assert fs[k] == rest[k];
      }
    }
  }

  /** With distinct field names, no field gets two error lines. */
  lemma {:induction false} FailuresDistinct(fields: seq<(string, Field)>, args: map<string, Value>)
    requires DistinctNames(fields)
    ensures forall k, l :: 0 <= k < l < |Failures(fields, args)| ==>
              Failures(fields, args)[k].name != Failures(fields, args)[l].name
  {
    if |fields| > 0 {
      var rest := Failures(fields[1..], args);
      assert DistinctNames(fields[1..]) by {
        forall i, j | 0 <= i < j < |fields[1..]|
          ensures fields[1..][i].0 != fields[1..][j].0
        {
          assert fields[1..][i] == fields[i + 1] && fields[1..][j] == fields[j + 1];
        }
      }
      FailuresDistinct(fields[1..], args);
      FailuresSound(fields[1..], args);
      if Outcome(fields[0], args).Err? {
        var fs := Failures(fields, args);
        forall k, l | 0 <= k < l < |fs|
          ensures fs[k].name != fs[l].name
        {
          if k == 0 {
            var i :| 0 <= i < |fields[1..]| && fields[1..][i].0 == rest[l - 1].name
                     && Outcome(fields[1..][i], args) == Err(rest[l - 1].error);
            assert fields[i + 1] == fields[1..][i];
          } else {
            assert fs[k] == rest[k - 1] && fs[l] == rest[l - 1];
          }
        }
      }
    }
  }

  /** There are no error lines exactly when every field accepts its input. */
  lemma {:induction false} NoFailuresIffAllAssign(fields: seq<(string, Field)>, args: map<string, Value>)
    ensures |Failures(fields, args)| == 0 <==> AllAssign(fields, args)
  {
    if !AllAssign(fields, args) {
      var i :| 0 <= i < |fields| && Outcome(fields[i], args).Err?;
      FailuresComplete(fields, args, i);
    }
    if |Failures(fields, args)| > 0 {
      FailuresSound(fields, args);
      var fs := Failures(fields, args);
      assert exists i :: 0 <= i < |fields| && fields[i].0 == fs[0].name
                         && Outcome(fields[i], args) == Err(fs[0].error);
    }
  }

  /** The record holds exactly the declared names, each with its field's stored value. */
  lemma {:induction false} CollectContents(fields: seq<(string, Field)>, args: map<string, Value>)
    requires DistinctNames(fields)
    requires AllAssign(fields, args)
    ensures Collect(fields, args).Keys == Names(fields)
    ensures forall i :: 0 <= i < |fields| ==> Collect(fields, args)[fields[i].0] == Outcome(fields[i], args).value
  {
    if |fields| > 0 {
      var rest := fields[1..];
      assert DistinctNames(rest) by {
        forall i, j | 0 <= i < j < |rest|
          ensures rest[i].0 != rest[j].0
        {
          assert rest[i] == fields[i + 1] && rest[j] == fields[j + 1];
        }
      }
      assert AllAssign(rest, args) by {
        forall i | 0 <= i < |rest|
          ensures Outcome(rest[i], args).Ok?
        {
          assert rest[i] == fields[i + 1];
        }
      }
      CollectContents(rest, args);
      assert Names(fields) == Names(rest) + {fields[0].0} by {
        forall n | n in Names(fields)
          ensures n in Names(rest) + {fields[0].0}
        {
          var i :| 0 <= i < |fields| && fields[i].0 == n;
          if i > 0 {
            assert rest[i - 1] == fields[i];
          }
        }
        forall n | n in Names(rest)
          ensures n in Names(fields)
        {
          var i :| 0 <= i < |rest| && rest[i].0 == n;
          assert fields[i + 1] == rest[i];
        }
      }
      forall i | 0 <= i < |fields|
        ensures Collect(fields, args)[fields[i].0] == Outcome(fields[i], args).value
      {
        if i > 0 {
          assert rest[i - 1] == fields[i];
        }
      }
    }
  }

  /**
   * Construction succeeds exactly when the schema declares a field, every
   * declared field accepts its input, and the schema rule then accepts the
   * record; the record maps each declared name to its field's value. When a
   * field fails, the error reports every failing field, not just the first.
   */
  lemma ConstructSpec(schema: Schema, args: map<string, Value>)
    requires DistinctNames(schema.fields)
    ensures |schema.fields| == 0 ==> Construct(schema, args) == Err(NoFields)
    ensures Construct(schema, args).Ok?
            <==> |schema.fields| > 0 && AllAssign(schema.fields, args)
                 && schema.rule(Collect(schema.fields, args)).None?
    ensures Construct(schema, args).Ok? ==>
              Construct(schema, args).value.Keys == Names(schema.fields)
              && forall i :: 0 <= i < |schema.fields| ==>
                   Construct(schema, args).value[schema.fields[i].0] == Outcome(schema.fields[i], args).value
    ensures Construct(schema, args).Err? && Construct(schema, args).error.Rejected? ==>
              AllAssign(schema.fields, args)
    ensures !AllAssign(schema.fields, args) ==>
              Construct(schema, args) == Err(InvalidFields(Failures(schema.fields, args)))
  {
    NoFailuresIffAllAssign(schema.fields, args);
    if AllAssign(schema.fields, args) {
      CollectContents(schema.fields, args);
    }
  }

  /** A constructed record holds every declared argument as supplied, and null for the ones left out. */
  lemma ConstructValues(schema: Schema, args: map<string, Value>)
    requires DistinctNames(schema.fields)
    requires Construct(schema, args).Ok?
    ensures Construct(schema, args).value.Keys == Names(schema.fields)
    ensures forall name :: name in Construct(schema, args).value ==>
              Construct(schema, args).value[name] == (if name in args then args[name] else VNone)
  {
    ConstructSpec(schema, args);
    CollectValues(schema.fields, args);
  }

  /** When every field passes, the record holds each declared name's argument as supplied, or null when omitted. */
  lemma CollectValues(fields: seq<(string, Field)>, args: map<string, Value>)
    requires DistinctNames(fields)
    requires AllAssign(fields, args)
    ensures Collect(fields, args).Keys == Names(fields)
    ensures forall name :: name in Collect(fields, args) ==>
              Collect(fields, args)[name] == (if name in args then args[name] else VNone)
  {
    CollectContents(fields, args);
    var r := Collect(fields, args);
    forall name | name in r
      ensures r[name] == (if name in args then args[name] else VNone)
    {
      var i :| 0 <= i < |fields| && fields[i].0 == name;
      assert Outcome(fields[i], args).Ok?;
    }
  }

  /** A field's outcome depends only on the argument of its own name. */
  lemma {:induction false} SameDeclaredInputs(fields: seq<(string, Field)>, a: map<string, Value>, b: map<string, Value>)
    requires forall i :: 0 <= i < |fields| ==> InputFor(a, fields[i].0) == InputFor(b, fields[i].0)
    ensures Failures(fields, a) == Failures(fields, b)
    ensures Collect(fields, a) == Collect(fields, b)
  {
    if |fields| > 0 {
      assert forall i :: 0 <= i < |fields[1..]| ==> fields[1..][i] == fields[i + 1];
      SameDeclaredInputs(fields[1..], a, b);
    }
  }

  /** Keyword arguments that name no declared field are ignored. */
  lemma ConstructIgnoresUndeclared(schema: Schema, args: map<string, Value>)
    ensures Construct(schema, args)
         == Construct(schema, map name | name in args && name in Names(schema.fields) :: args[name])
  {
    var declared := map name | name in args && name in Names(schema.fields) :: args[name];
    forall i | 0 <= i < |schema.fields|
      ensures InputFor(args, schema.fields[i].0) == InputFor(declared, schema.fields[i].0)
    {
      assert schema.fields[i].0 in Names(schema.fields);
    }
    SameDeclaredInputs(schema.fields, args, declared);
  }

  // Error text.

  function TagName(t: Tag): string {
    match t
    case NoneType => "NoneType"
    case BoolType => "bool"
    case IntType => "int"
    case FloatType => "float"
    case StrType => "str"
    case ListType => "list"
    case TupleType => "tuple"
    case SetType => "set"
    case DictType => "dict"
  }

  function TagsText(ts: set<Tag>): string {
    var order := [NoneType, BoolType, IntType, FloatType, StrType, ListType, TupleType, SetType, DictType];
    JoinFiltered(order, ts)
  }

  function JoinFiltered(order: seq<Tag>, ts: set<Tag>): string {
    if |order| == 0 then ""
    else
      var rest := JoinFiltered(order[1..], ts);
      if order[0] !in ts then rest
      else if rest == "" then TagName(order[0])
      else TagName(order[0]) + ", " + rest
  }

  function Describe(e: FieldError): string {
    match e
    case RequiredMissing => "field is required"
    case NullNotAllowed => "field can not be null"
    case WrongType(expected, actual) => "expected " + TagsText(expected) + ", got " + TagName(actual)
    case Invalid(reason) => reason
  }

  /** One line per failure: `Invalid '<name>' field: <reason>`. */
  function Lines(fs: seq<Failure>): (ls: seq<string>)
    ensures |ls| == |fs|
    ensures forall k :: 0 <= k < |fs| ==> ls[k] == "Invalid '" + fs[k].name + "' field: " + Describe(fs[k].error)
  {
    seq(|fs|, k requires 0 <= k < |fs| => "Invalid '" + fs[k].name + "' field: " + Describe(fs[k].error))
  }

  function Join(ls: seq<string>, sep: string): string {
    if |ls| == 0 then "" else if |ls| == 1 then ls[0] else ls[0] + sep + Join(ls[1..], sep)
  }

  /**
   * A failed construction always has something to say, provided the
   * schema's rule never rejects with an empty reason.
   */
  lemma ErrorTextNonEmpty(schema: Schema, args: map<string, Value>)
    requires Construct(schema, args).Err?
    requires forall rec :: schema.rule(rec).Some? ==> |schema.rule(rec).value| > 0
    ensures |ErrorText(Construct(schema, args).error)| > 0
  {
    var e := Construct(schema, args).error;
    if e.InvalidFields? {
      var ls := Lines(e.failures);
      assert |ls| > 0 && |ls[0]| > 0;
    }
  }

  /** The message of a failed construction, as `str()` of the raised error. */
  function ErrorText(e: SchemaError): string {
    match e
    case NoFields => "schema declares no fields"
    case InvalidFields(fs) => Join(Lines(fs), "\n")
    case Rejected(reason) => reason
  }
}

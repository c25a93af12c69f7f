/**
 * Typed request fields: a field declares the types it accepts, whether it
 * must be supplied (`required`) and whether it may be null (`nullable`),
 * plus a kind-specific validation hook run on well-typed values.
 */
module Fields {
  import opened Results
  import opened Values
  import opened Text
  import Dates

  /** The `validate` hook of a field kind, run on a non-null, well-typed value. */
  datatype Hook =
    | NoCheck
    | EmailCheck
    | PhoneCheck
    | DateCheck
    | BirthDayCheck(today: Dates.Date, maxAge: int)
    | GenderCheck
    | ClientIdsCheck
    | CustomCheck(rule: Value -> Option<string>)

  datatype Field = Field(types: set<Tag>, required: bool, nullable: bool, hook: Hook)

  /** What a schema hands a field: the supplied value, or nothing at all. */
  datatype Input = Missing | Given(v: Value)

  datatype FieldError =
    | RequiredMissing
    | NullNotAllowed
    | WrongType(expected: set<Tag>, actual: Tag)
    | Invalid(reason: string)

  /** Declaring a field; a field that accepts no type at all is refused. */
  function NewField(types: set<Tag>, required: bool, nullable: bool, hook: Hook): (r: Result<Field, string>)
    ensures r.Ok? <==> types != {}
    ensures r.Ok? ==> (r.value.types == types && r.value.required == required
                       && r.value.nullable == nullable && r.value.hook == hook)
  {
    if types == {} then Err("a field must accept at least one type")
    else Ok(Field(types, required, nullable, hook))
  }

  // Kind-specific rules, each on a value whose type has already been checked.

  predicate IsEmail(v: Value) {
    v.VStr? && '@' in v.s
  }

  /** The text of a phone number: eleven characters, the first being `7`. */
  predicate IsPhoneText(t: string) {
    |t| == 11 && t[0] == '7'
  }

  /** `str(value)` of a phone given as text or as an integer has the phone shape. */
  predicate IsPhone(v: Value) {
    (v.VStr? && IsPhoneText(v.s)) || (v.VInt? && IsPhoneText(DecimalText(v.i)))
  }

  predicate IsDateText(v: Value) {
    v.VStr? && Dates.Parse(v.s).Some?
  }

  predicate IsBirthDay(v: Value, today: Dates.Date, maxAge: int) {
    IsDateText(v) && Dates.AgeOn(Dates.Parse(v.s).value, today) <= maxAge
  }

  predicate IsGender(v: Value) {
    v.VInt? && 0 <= v.i <= 2
  }

  predicate IsNumber(v: Value) {
    v.VInt? || v.VFloat?
  }

  predicate IsClientIds(v: Value) {
    v.VList? && |v.items| > 0 && forall i :: 0 <= i < |v.items| ==> IsNumber(v.items[i])
  }

  /** The reason a hook rejects a value, or None when it accepts it. */
  function Violation(h: Hook, v: Value): Option<string> {
    match h
    case NoCheck => None
    case EmailCheck => if IsEmail(v) then None else Some("email must contain '@'")
    case PhoneCheck =>
      if IsPhone(v) then None else Some("phone must be 11 characters long and start with 7")
    case DateCheck => if IsDateText(v) then None else Some("date must be a real day written DD.MM.YYYY")
    case BirthDayCheck(today, maxAge) =>
      if !IsDateText(v) then Some("date must be a real day written DD.MM.YYYY")
      else if IsBirthDay(v, today, maxAge) then None
      else Some("birthday must be at most " + DecimalText(maxAge) + " years ago")
    case GenderCheck => if IsGender(v) then None else Some("gender must be 0, 1 or 2")
    case ClientIdsCheck =>
      if IsClientIds(v) then None else Some("client ids must be a non-empty list of numbers")
    case CustomCheck(rule) => rule(v)
  }

  predicate Passes(h: Hook, v: Value) {
    Violation(h, v).None?
  }

  /**
   * Assigning an input to a field: a missing input is refused by a required
   * field and stored as null otherwise; null is refused by a non-nullable
   * field and stored otherwise, even in a required one; any other value must
   * have one of the declared types and then pass the field's hook.
   */
  function Assign(f: Field, input: Input): (r: Result<Value, FieldError>)
    ensures input == Missing ==> (r.Ok? <==> !f.required)
    ensures input == Given(VNone) ==> (r.Ok? <==> f.nullable)
    ensures input.Given? && input.v != VNone && TagOf(input.v) !in f.types
            ==> r == Err(WrongType(f.types, TagOf(input.v)))
    ensures input.Given? && input.v != VNone && TagOf(input.v) in f.types
            ==> (r.Ok? <==> Passes(f.hook, input.v))
    ensures r.Ok? ==> r.value == (if input.Given? then input.v else VNone)
    ensures r.Ok? ==> r.value == VNone || TagOf(r.value) in f.types
  {
    match input
    case Missing => if f.required then Err(RequiredMissing) else Ok(VNone)
    case Given(v) =>
      if v == VNone then
        (if f.nullable then Ok(VNone) else Err(NullNotAllowed))
      else if TagOf(v) !in f.types then Err(WrongType(f.types, TagOf(v)))
      else match Violation(f.hook, v)
        case Some(reason) => Err(Invalid(reason))
        case None => Ok(v)
  }

  // The field kinds of the request schemas.

  function CharField(required: bool, nullable: bool): Field {
    Field({StrType}, required, nullable, NoCheck)
  }

  function ArgumentsField(required: bool, nullable: bool): Field {
    Field({DictType}, required, nullable, NoCheck)
  }

  function EmailField(required: bool, nullable: bool): Field {
    Field({StrType}, required, nullable, EmailCheck)
  }

  function PhoneField(required: bool, nullable: bool): Field {
    Field({StrType, IntType}, required, nullable, PhoneCheck)
  }

  function DateField(required: bool, nullable: bool): Field {
    Field({StrType}, required, nullable, DateCheck)
  }

  function BirthDayField(required: bool, nullable: bool, today: Dates.Date, maxAge: int): Field {
    Field({StrType}, required, nullable, BirthDayCheck(today, maxAge))
  }

  function GenderField(required: bool, nullable: bool): Field {
    Field({IntType}, required, nullable, GenderCheck)
  }

  function ClientIdsField(required: bool, nullable: bool): Field {
    Field({ListType}, required, nullable, ClientIdsCheck)
  }

  /** A char field takes exactly the strings, the empty one included. */
  lemma CharRule(required: bool, nullable: bool, v: Value)
    requires v != VNone
    ensures Assign(CharField(required, nullable), Given(v)).Ok? <==> v.VStr?
  {
  }

  /** An arguments field takes exactly the dicts, whatever their keys. */
  lemma ArgumentsRule(required: bool, nullable: bool, v: Value)
    requires v != VNone
    ensures Assign(ArgumentsField(required, nullable), Given(v)).Ok? <==> v.VDict?
  {
  }

  /** An email field takes exactly the strings containing `@`. */
  lemma EmailRule(required: bool, nullable: bool, v: Value)
    requires v != VNone
    ensures Assign(EmailField(required, nullable), Given(v)).Ok?
            <==> v.VStr? && exists i :: 0 <= i < |v.s| && v.s[i] == '@'
  {
  }

  /**
   * A phone field takes an eleven-character string starting with `7`, or an
   * integer from 70000000000 up to 79999999999; nothing else.
   */
  lemma PhoneRule(required: bool, nullable: bool, v: Value)
    requires v != VNone
    ensures Assign(PhoneField(required, nullable), Given(v)).Ok?
            <==> ((v.VStr? && |v.s| == 11 && v.s[0] == '7')
                  || (v.VInt? && 70000000000 <= v.i < 80000000000))
  {
    if v.VInt? {
      ElevenDigitsStartingWithSeven(v.i);
    }
  }

  /** A date field takes exactly the texts that are some real day written `DD.MM.YYYY`. */
  lemma DateRule(required: bool, nullable: bool, v: Value)
    requires v != VNone
    ensures Assign(DateField(required, nullable), Given(v)).Ok?
            <==> v.VStr? && exists d :: Dates.IsCalendarDate(d) && Dates.Format(d) == v.s
  {
    if v.VStr? {
      Dates.ParsesIffFormatted(v.s);
    }
  }

  /**
   * A birthday field takes a real day written `DD.MM.YYYY` on which, as of
   * `today`, the holder is at most `maxAge` years old.
   */
  lemma BirthDayRule(required: bool, nullable: bool, today: Dates.Date, maxAge: int, v: Value)
    requires v != VNone
    ensures Assign(BirthDayField(required, nullable, today, maxAge), Given(v)).Ok?
            <==> v.VStr? && exists d :: Dates.IsCalendarDate(d) && Dates.Format(d) == v.s
                                      && Dates.AgeOn(d, today) <= maxAge
  {
    if v.VStr? {
      Dates.ParsedAgeIffFormatted(v.s, today, maxAge);
    }
  }

  /** A gender field takes the integers 0, 1 and 2 only. */
  lemma GenderRule(required: bool, nullable: bool, v: Value)
    requires v != VNone
    ensures Assign(GenderField(required, nullable), Given(v)).Ok? <==> v in {VInt(0), VInt(1), VInt(2)}
  {
  }

  /** A client-ids field takes exactly the non-empty lists whose elements are all numbers. */
  lemma ClientIdsRule(required: bool, nullable: bool, v: Value)
    requires v != VNone
    ensures Assign(ClientIdsField(required, nullable), Given(v)).Ok?
            <==> v.VList? && |v.items| > 0 && forall i :: 0 <= i < |v.items| ==> v.items[i].VInt? || v.items[i].VFloat?
  {
  }
}

/** The struct validator the entities call (`validators.ValidatorFields`,
    a shared go-playground validator instance), for the tags the entities
    use: `required`, `omitempty`, `min`, `max`, `fqdn`, `email` and
    `numeric`. A struct is a list of tagged fields in declaration order; each
    field reports at most one error, for the first of its tags it fails, and
    the struct's errors are those of its fields in order. */
module Validation {
  import opened Wrappers
  import opened Strconv
  import opened Chrono
  import opened Foreign

  /** The tags that check a value. `omitempty`, which can only come first
      and only decides whether the others are checked, is a flag of the
      field instead. */
  datatype Rule = Required | Min(limit: nat) | Max(limit: nat) | Fqdn | Email | Numeric

  /** The value of a field, by its Go type: string, *string, time.Time, int,
      float64 and *map[string]string. */
  datatype FieldValue =
    | Text(text: string)
    | OptText(optText: Option<string>)
    | Moment(instant: Instant)
    | Whole(whole: int)
    | Decimal(decimal: real)
    | OptMap(optMap: Option<map<string, string>>)

  datatype TaggedField = TaggedField(name: string, value: FieldValue, omitEmpty: bool, rules: seq<Rule>)

  /** A `validator.FieldError`: the field's name (`Field()`), the failed tag
      (`Tag()`) and its parameter (`Param()`). */
  datatype FieldError = FieldError(field: string, tag: string, param: string)

  function TagName(r: Rule): string {
    match r
    case Required => "required"
    case Min(_) => "min"
    case Max(_) => "max"
    case Fqdn => "fqdn"
    case Email => "email"
    case Numeric => "numeric"
  }

  function TagParam(r: Rule): string {
    match r
    case Min(n) => FormatInt(n)
    case Max(n) => FormatInt(n)
    case _ => ""
  }

  function ErrorFor(name: string, r: Rule): FieldError {
    FieldError(name, TagName(r), TagParam(r))
  }

  predicate IsNilPointer(v: FieldValue) {
    (v.OptText? && v.optText.None?) || (v.OptMap? && v.optMap.None?)
  }

  /** The validator's `hasValue`: a non-nil pointer always has one, any
      other value when it is not its type's zero value. */
  predicate HasValue(v: FieldValue) {
    match v
    case Text(s) => s != ""
    case OptText(o) => o.Some?
    case Moment(t) => t != ZeroTime
    case Whole(n) => n != 0
    case Decimal(r) => r != 0.0
    case OptMap(m) => m.Some?
  }

  /** The length `min` and `max` compare: the number of characters of a
      text, the value of a number. */
  function Size(v: FieldValue): Option<real> {
    match v
    case Text(s) => Some(|s| as real)
    case OptText(o) => if o.Some? then Some(|o.value| as real) else None
    case Whole(n) => Some(n as real)
    case Decimal(r) => Some(r)
    case _ => None
  }

  /** Whether a non-nil value passes one tag. `fqdn` and `email` are the
      library's checks, parameters here. A tag on a type the validator does
      not support for it fails (no field of the model has one). */
  predicate Satisfies(x: Externals, r: Rule, v: FieldValue) {
    match r
    case Required => HasValue(v)
    case Min(n) => Size(v).Some? && Size(v).value >= n as real
    case Max(n) => Size(v).Some? && Size(v).value <= n as real
    case Fqdn => v.Text? && x.isFqdn(v.text)
    case Email => v.Text? && x.isEmail(v.text)
    case Numeric => v.Whole? || v.Decimal?
  }

  /** The tags of a non-nil field, one by one: the first that fails is the
      field's error. */
  function CheckRules(x: Externals, name: string, v: FieldValue, rules: seq<Rule>): (e: Option<FieldError>)
    ensures e.Some? ==>
      exists i :: 0 <= i < |rules| && e.value == ErrorFor(name, rules[i]) && !Satisfies(x, rules[i], v)
        && forall j :: 0 <= j < i ==> Satisfies(x, rules[j], v)
    ensures e.None? <==> forall i :: 0 <= i < |rules| ==> Satisfies(x, rules[i], v)
  {
    if rules == [] then None
    else if !Satisfies(x, rules[0], v) then Some(ErrorFor(name, rules[0]))
    else
      var e := CheckRules(x, name, v, rules[1..]);
      assert forall j :: 1 <= j < |rules| ==> rules[1..][j - 1] == rules[j];
      e
  }

  /** The one error a field reports, if any. A nil pointer reports its first
      tag unless it is tagged `omitempty` (or has no tag); `omitempty` skips a
      zero value too. */
  function FieldCheck(x: Externals, f: TaggedField): (e: Option<FieldError>)
    ensures e.Some? ==> e.value.field == f.name && exists i :: 0 <= i < |f.rules| && e.value == ErrorFor(f.name, f.rules[i])
    ensures e.None? <==> FieldPasses(x, f)
    ensures IsNilPointer(f.value) && !f.omitEmpty && f.rules != [] ==> e == Some(ErrorFor(f.name, f.rules[0]))
    ensures !IsNilPointer(f.value) && e.Some? ==>
      exists i :: 0 <= i < |f.rules| && e.value == ErrorFor(f.name, f.rules[i]) && !Satisfies(x, f.rules[i], f.value)
        && forall j :: 0 <= j < i ==> Satisfies(x, f.rules[j], f.value)
  {
    if IsNilPointer(f.value) then
      if f.omitEmpty || f.rules == [] then None else Some(ErrorFor(f.name, f.rules[0]))
    else if f.omitEmpty && !HasValue(f.value) then None
    else CheckRules(x, f.name, f.value, f.rules)
  }

  /** What a field's tags mean, stated without their order: skipped when
      `omitempty` applies, and otherwise every tag holds. */
  predicate FieldPasses(x: Externals, f: TaggedField) {
    if IsNilPointer(f.value) then f.omitEmpty || f.rules == []
    else (f.omitEmpty && !HasValue(f.value)) || forall i :: 0 <= i < |f.rules| ==> Satisfies(x, f.rules[i], f.value)
  }

  /** `validate.Struct`: the errors of the fields, in declaration order. */
  function ValidateStruct(x: Externals, fields: seq<TaggedField>): (errs: seq<FieldError>)
    ensures errs == [] <==> forall i :: 0 <= i < |fields| ==> FieldCheck(x, fields[i]).None?
    ensures errs != [] ==>
      exists i :: 0 <= i < |fields| && FieldCheck(x, fields[i]) == Some(errs[0])
        && forall j :: 0 <= j < i ==> FieldCheck(x, fields[j]).None?
    ensures |errs| <= |fields|
  {
    if fields == [] then []
    else
      var rest := ValidateStruct(x, fields[1..]);
      assert forall j :: 1 <= j < |fields| ==> fields[1..][j - 1] == fields[j];
      match FieldCheck(x, fields[0])
      case Some(e) => [e] + rest
      case None => rest
  }

  /** A struct is valid exactly when every field's tags hold. */
  lemma ValidateStructPasses(x: Externals, fields: seq<TaggedField>)
    ensures ValidateStruct(x, fields) == [] <==> forall i :: 0 <= i < |fields| ==> FieldPasses(x, fields[i])
  {
  }

  /** The first error reported is that of the first field that fails: when
      every field before k passes and field k does not, the struct's first
      error is field k's. */
  lemma ValidateStructFirst(x: Externals, fields: seq<TaggedField>, k: int)
    requires 0 <= k < |fields|
    requires forall j :: 0 <= j < k ==> FieldCheck(x, fields[j]).None?
    requires FieldCheck(x, fields[k]).Some?
    ensures ValidateStruct(x, fields) != [] && ValidateStruct(x, fields)[0] == FieldCheck(x, fields[k]).value
  {
  }
}

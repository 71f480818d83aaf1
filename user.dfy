/** internal/domain/entities/user_entity.go: a user account, its validation
    tags, its constructor and its three mutators. */
module Users {
  import opened Wrappers
  import opened Chrono
  import opened Foreign
  import opened Validation
  import opened Contracts
  import opened Strconv

  /** The limit of every `max=255` tag. */
  const MaxLength: nat := 255

  /** The four business fields of `UserEntity`, in declaration order. */
  datatype UserData = UserData(name: string, email: string, password: string, refreshToken: Option<string>)

  /** `UserProps`: the business fields plus the optional identity and
      timestamps that `Init` defaults. */
  datatype UserProps = UserProps(
    id: Option<string>,
    name: string,
    email: string,
    password: string,
    refreshToken: Option<string>,
    createdAt: Option<Instant>,
    updatedAt: Option<Instant>,
    deletedAt: Option<Instant>)
  {
    function Data(): UserData {
      UserData(name, email, password, refreshToken)
    }
  }

  /** The i-th field of the struct the validator sees: each business field
      with its Go name, its value and its `validate` tag, in declaration
      order (the embedded `contracts.Entity` carries no tags). */
  function UserField(d: UserData, i: int): TaggedField
  {
    match i
    case 0 => TaggedField("Name", Text(d.name), false, [Required, Min(3), Max(MaxLength)])
    case 1 => TaggedField("Email", Text(d.email), false, [Required, Email])
    case 2 => TaggedField("Password", Text(d.password), false, [Required, Min(6), Max(MaxLength)])
    case _ => TaggedField("RefreshToken", OptText(d.refreshToken), true, [Max(MaxLength)])
  }

  /** The struct as the validator walks it. */
  function UserTagged(d: UserData): (fields: seq<TaggedField>)
    ensures |fields| == 4
    ensures forall i :: 0 <= i < 4 ==> fields[i] == UserField(d, i)
  {
    seq(4, i => UserField(d, i))
  }

  /** What the tags ask, in plain terms: a name of 3 to 255 characters, a
      non-empty e-mail address the library accepts, a password of 6 to 255
      characters, and a refresh token that is absent or at most 255
      characters long. */
  predicate UserRulesHold(x: Externals, d: UserData) {
    && 3 <= |d.name| <= MaxLength
    && d.email != "" && x.isEmail(d.email)
    && 6 <= |d.password| <= MaxLength
    && (d.refreshToken.None? || |d.refreshToken.value| <= MaxLength)
  }

  /** The same rules, field by field. */
  predicate UserFieldHolds(x: Externals, d: UserData, i: int) {
    match i
    case 0 => 3 <= |d.name| <= MaxLength
    case 1 => d.email != "" && x.isEmail(d.email)
    case 2 => 6 <= |d.password| <= MaxLength
    case _ => d.refreshToken.None? || |d.refreshToken.value| <= MaxLength
  }

  /** The validator's verdict on one field is what its tag asks. */
  lemma UserFieldIff(x: Externals, d: UserData, i: int)
    requires 0 <= i < 4
    ensures FieldPasses(x, UserField(d, i)) <==> UserFieldHolds(x, d, i)
  {
    if i == 0 {
      BoundedTextPasses(x, "Name", d.name, 3);
    } else if i == 1 {
      var f := UserField(d, 1);
      assert Satisfies(x, f.rules[0], f.value) <==> d.email != "";
      assert Satisfies(x, f.rules[1], f.value) <==> x.isEmail(d.email);
    } else if i == 2 {
      BoundedTextPasses(x, "Password", d.password, 6);
    } else {
      var f := UserField(d, 3);
      if d.refreshToken.Some? {
        assert Satisfies(x, f.rules[0], f.value) <==> |d.refreshToken.value| <= MaxLength;
      }
    }
  }

  /** The validator accepts a user exactly when its tags hold. */
  lemma UserValidIff(x: Externals, d: UserData)
    ensures ValidateStruct(x, UserTagged(d)) == [] <==> UserRulesHold(x, d)
  {
    var f := UserTagged(d);
    ValidateStructPasses(x, f);
    forall i | 0 <= i < 4
      ensures FieldPasses(x, f[i]) <==> UserFieldHolds(x, d, i)
    {
      UserFieldIff(x, d, i);
    }
    if UserRulesHold(x, d) {
      forall i | 0 <= i < 4 ensures UserFieldHolds(x, d, i) {
      }
    }
    assert (forall i :: 0 <= i < 4 ==> UserFieldHolds(x, d, i)) ==>
      UserFieldHolds(x, d, 0) && UserFieldHolds(x, d, 1) && UserFieldHolds(x, d, 2) && UserFieldHolds(x, d, 3);
  }

  /** A text tagged `required,min=lo,max=255` passes exactly when its
      length is between lo and 255. */
  lemma BoundedTextPasses(x: Externals, name: string, s: string, lo: nat)
    requires lo >= 1
    ensures FieldPasses(x, TaggedField(name, Text(s), false, [Required, Min(lo), Max(MaxLength)])) <==> lo <= |s| <= MaxLength
  {
    var f := TaggedField(name, Text(s), false, [Required, Min(lo), Max(MaxLength)]);
    assert Satisfies(x, f.rules[0], f.value) <==> s != "";
    assert Satisfies(x, f.rules[1], f.value) <==> |s| >= lo;
    assert Satisfies(x, f.rules[2], f.value) <==> |s| <= MaxLength;
  }

  /** A name of one or two characters is reported on Name with the `min`
      tag and its parameter "3", whatever else is wrong: Name is declared
      first and `required` passes. */
  lemma ShortNameFirst(x: Externals, d: UserData)
    requires 1 <= |d.name| < 3
    ensures var errs := ValidateStruct(x, UserTagged(d));
      errs != [] && errs[0] == FieldError("Name", "min", "3")
  {
    var f := UserTagged(d);
    assert Satisfies(x, f[0].rules[0], f[0].value);
    assert !Satisfies(x, f[0].rules[1], f[0].value);
    assert CheckRules(x, "Name", f[0].value, f[0].rules[1..]) == Some(ErrorFor("Name", Min(3)));
    assert FormatInt(3) == "3" by {
      assert NatDigits(3) == "3";
    }
    ValidateStructFirst(x, f, 0);
  }

  /** `NewUserEntity` as a function: the props copied, `Init` applied, then
      the validator's errors when there are any. */
  function NewUser(x: Externals, props: UserProps, now: Instant, generatedId: string): Result<UserRecord, seq<FieldError>>
  {
    var errs := ValidateStruct(x, UserTagged(props.Data()));
    if errs != [] then Failure(errs)
    else Success(UserRecord(InitFields(props.id, props.createdAt, props.updatedAt, props.deletedAt, now, generatedId), props.Data()))
  }

  /** NewUserEntity fails exactly when the tags do not hold; otherwise the
      business fields are the props and the identity is what Init gives. */
  lemma NewUserOutcome(x: Externals, props: UserProps, now: Instant, generatedId: string)
    ensures var r := NewUser(x, props, now, generatedId);
      && (r.Failure? <==> !UserRulesHold(x, props.Data()))
      && (r.Failure? ==> r.error != [] && r.error == ValidateStruct(x, UserTagged(props.Data())))
      && (r.Success? ==>
            && r.value.data == props.Data()
            && r.value.entity == InitFields(props.id, props.createdAt, props.updatedAt, props.deletedAt, now, generatedId))
  {
    UserValidIff(x, props.Data());
  }

  /** A user as stored: the `Entity` part and the business part. */
  datatype UserRecord = UserRecord(entity: EntityFields, data: UserData)

  /** `UserEntity`: an `Entity` and the four business fields. Each mutator
      assigns first and validates afterwards, so a rejected change stays
      applied. */
  class UserEntity {
    const base: Entity
    var name: string
    var email: string
    var password: string
    var refreshToken: Option<string>

    function Data(): UserData
      reads this
    {
      UserData(name, email, password, refreshToken)
    }

    function Record(): UserRecord
      reads this, base
    {
      UserRecord(base.Fields(), Data())
    }

    /** The struct literal of `NewUserEntity`. */
    constructor (d: UserData, base: Entity)
      ensures Data() == d && this.base == base
    {
      this.base := base;
      name := d.name;
      email := d.email;
      password := d.password;
      refreshToken := d.refreshToken;
    }

    /** `Update`: sets Name, Email and UpdatedAt, then validates. */
    method Update(x: Externals, props: UserProps, now: Instant) returns (errs: seq<FieldError>)
      modifies this, base
      ensures Data() == old(Data()).(name := props.name, email := props.email)
      ensures base.Fields() == old(base.Fields()).(updatedAt := now)
      ensures errs == ValidateStruct(x, UserTagged(Data()))
    {
      name := props.name;
      email := props.email;
      base.updatedAt := now;
      errs := ValidateStruct(x, UserTagged(Data()));
    }

    /** `UpdatePassword`: sets Password and UpdatedAt, then validates. */
    method UpdatePassword(x: Externals, password: string, now: Instant) returns (errs: seq<FieldError>)
      modifies this, base
      ensures Data() == old(Data()).(password := password)
      ensures base.Fields() == old(base.Fields()).(updatedAt := now)
      ensures errs == ValidateStruct(x, UserTagged(Data()))
    {
      this.password := password;
      base.updatedAt := now;
      errs := ValidateStruct(x, UserTagged(Data()));
    }

    /** `UpdateRefreshToken`: sets RefreshToken and UpdatedAt, then
        validates. */
    method UpdateRefreshToken(x: Externals, token: Option<string>, now: Instant) returns (errs: seq<FieldError>)
      modifies this, base
      ensures Data() == old(Data()).(refreshToken := token)
      ensures base.Fields() == old(base.Fields()).(updatedAt := now)
      ensures errs == ValidateStruct(x, UserTagged(Data()))
    {
      refreshToken := token;
      base.updatedAt := now;
      errs := ValidateStruct(x, UserTagged(Data()));
    }
  }

  /** `NewUserEntity`: builds the entity, runs `Init`, validates, and hands
      the entity back only when it is valid. */
  method NewUserEntity(x: Externals, props: UserProps, now: Instant, generatedId: string)
    returns (r: Result<UserEntity, seq<FieldError>>)
    ensures r.Success? <==> NewUser(x, props, now, generatedId).Success?
    ensures r.Success? ==> fresh(r.value) && fresh(r.value.base) && r.value.Record() == NewUser(x, props, now, generatedId).value
    ensures r.Failure? ==> r.error == NewUser(x, props, now, generatedId).error
  {
    var base := new Entity();
    var entity := new UserEntity(props.Data(), base);
    base.Init(props.id, props.createdAt, props.updatedAt, props.deletedAt, now, generatedId);
    var errs := ValidateStruct(x, UserTagged(entity.Data()));
    if errs != [] {
      return Failure(errs);
    }
    return Success(entity);
  }

  /** A password shorter than six characters is always rejected, so an
      UpdatePassword to one always reports an error (and keeps it). */
  lemma ShortPasswordRejected(x: Externals, d: UserData)
    requires |d.password| < 6
    ensures ValidateStruct(x, UserTagged(d)) != []
  {
    UserValidIff(x, d);
  }
}

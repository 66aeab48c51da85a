/**
 * The request and response records of the minder service and the validation rules
 * their struct tags declare, interpreted as go-playground/validator does: the tags of a
 * field are checked in order and the first one that fails is the field's error,
 * `omitempty` stops the checks for an empty value, and a struct is valid when every
 * field is.
 */
module Model {
  import Dates

  datatype RegisterReq = RegisterReq(
    username: string, email: string, phoneNumber: string, password: string,
    fullName: string, gender: string, dateOfBirth: string, profilePicture: string)

  datatype LoginReq = LoginReq(username: string, password: string)

  /** `Id` and `TargetId` are Go int64 values. */
  datatype SwipeReq = SwipeReq(id: int, targetId: int, action: string)

  /** What login returns: every column of a user except the password. */
  datatype UserData = UserData(
    userId: int, username: string, email: string, phoneNumber: string, fullName: string,
    gender: string, dateOfBirth: string, isUpgraded: bool, profilePicture: string)

  /** What discovery returns: a user's public profile, without password or upgrade flag. */
  datatype TargetUserData = TargetUserData(
    userId: int, username: string, email: string, phoneNumber: string, fullName: string,
    gender: string, dateOfBirth: string, profilePicture: string)

  /** A struct field's value as the validator sees it. */
  datatype FieldValue = Str(s: string) | Int(i: int)

  /** The validation tags the program uses; `DateFormat` is the custom "dateformat" rule. */
  datatype Tag = Required | OmitEmpty | OneOf(options: seq<string>) | DateFormat

  /** The validator's `hasValue`: the value is not its type's zero value. */
  predicate HasValue(v: FieldValue)
  {
    match v
    case Str(s) => s != ""
    case Int(i) => i != 0
  }

  /** The custom "dateformat" validator: the field's string parses with layout "2006-01-02". */
  function DateFormatValidator(field: string): (ok: bool)
    ensures ok <==> Dates.IsIsoDate(field)
  {
    Dates.IsoParse(field);
    Dates.Parse(Dates.IsoLayout, field).Some?
  }

  /** One tag's check. `oneof` on a number compares its decimal form, which never matters here. */
  predicate TagHolds(t: Tag, v: FieldValue)
  {
    match t
    case Required => HasValue(v)
    case OmitEmpty => true
    case OneOf(options) => v.Str? && v.s in options
    case DateFormat => v.Str? && DateFormatValidator(v.s)
  }

  /** The tags of one field, checked in order. */
  predicate FieldValid(v: FieldValue, tags: seq<Tag>)
  {
    if tags == [] then true
    else if tags[0] == OmitEmpty && !HasValue(v) then true
    else TagHolds(tags[0], v) && FieldValid(v, tags[1..])
  }

  /** `validate.Struct(x) == nil`: every field passes its tags. */
  predicate StructValid(fields: seq<(FieldValue, seq<Tag>)>)
  {
    forall i :: 0 <= i < |fields| ==> FieldValid(fields[i].0, fields[i].1)
  }

  const GenderTags: seq<Tag> := [Required, OneOf(["male", "female"])]
  const DateOfBirthTags: seq<Tag> := [Required, OmitEmpty, DateFormat]
  const ActionTags: seq<Tag> := [Required, OneOf(["like", "pass"])]

  /** The fields of a `RegisterReq` with their `validate` tags, in declaration order. */
  function RegisterFields(r: RegisterReq): seq<(FieldValue, seq<Tag>)>
  {
    [(Str(r.username), [Required]), (Str(r.email), [Required]), (Str(r.phoneNumber), [Required]),
     (Str(r.password), [Required]), (Str(r.fullName), [Required]), (Str(r.gender), GenderTags),
     (Str(r.dateOfBirth), DateOfBirthTags), (Str(r.profilePicture), [Required])]
  }

  function LoginFields(r: LoginReq): seq<(FieldValue, seq<Tag>)>
  {
    [(Str(r.username), [Required]), (Str(r.password), [Required])]
  }

  function SwipeFields(r: SwipeReq): seq<(FieldValue, seq<Tag>)>
  {
    [(Int(r.id), [Required]), (Int(r.targetId), [Required]), (Str(r.action), ActionTags)]
  }

  predicate RegisterValid(r: RegisterReq) { StructValid(RegisterFields(r)) }
  predicate LoginValid(r: LoginReq) { StructValid(LoginFields(r)) }
  predicate SwipeValid(r: SwipeReq) { StructValid(SwipeFields(r)) }

  lemma RequiredTag(v: FieldValue)
    ensures FieldValid(v, [Required]) <==> HasValue(v)
  {
    assert [Required][1..] == [];
  }

  lemma RequiredOneOfTags(v: FieldValue, options: seq<string>)
    ensures FieldValid(v, [Required, OneOf(options)]) <==> HasValue(v) && v.Str? && v.s in options
  {
    var tags := [Required, OneOf(options)];
    assert tags[1..] == [OneOf(options)] && [OneOf(options)][1..] == [];
    assert FieldValid(v, tags) == (HasValue(v) && FieldValid(v, [OneOf(options)]));
    assert FieldValid(v, [OneOf(options)]) == (TagHolds(OneOf(options), v) && FieldValid(v, []));
  }

  lemma DateOfBirthTagsMean(v: FieldValue)
    ensures FieldValid(v, DateOfBirthTags) <==> HasValue(v) && v.Str? && DateFormatValidator(v.s)
  {
    assert DateOfBirthTags[1..] == [OmitEmpty, DateFormat];
    assert [OmitEmpty, DateFormat][1..] == [DateFormat] && [DateFormat][1..] == [];
    assert FieldValid(v, DateOfBirthTags) == (HasValue(v) && FieldValid(v, [OmitEmpty, DateFormat]));
    if HasValue(v) {
      assert FieldValid(v, [OmitEmpty, DateFormat]) == FieldValid(v, [DateFormat]);
      assert FieldValid(v, [DateFormat]) == (TagHolds(DateFormat, v) && FieldValid(v, []));
    }
  }

  /**
   * A registration passes validation exactly when all eight fields are non-empty, the
   * gender is "male" or "female", and the date of birth is a "YYYY-MM-DD" calendar date.
   */
  lemma RegisterValidMeans(r: RegisterReq)
    ensures RegisterValid(r) <==>
      r.username != "" && r.email != "" && r.phoneNumber != "" && r.password != ""
      && r.fullName != "" && r.profilePicture != ""
      && r.gender in ["male", "female"]
      && r.dateOfBirth != "" && Dates.IsIsoDate(r.dateOfBirth)
  {
    var f := RegisterFields(r);
    RequiredTag(Str(r.username));
    RequiredTag(Str(r.email));
    RequiredTag(Str(r.phoneNumber));
    RequiredTag(Str(r.password));
    RequiredTag(Str(r.fullName));
    RequiredTag(Str(r.profilePicture));
    RequiredOneOfTags(Str(r.gender), ["male", "female"]);
    DateOfBirthTagsMean(Str(r.dateOfBirth));
    if RegisterValid(r) {
      assert FieldValid(f[0].0, f[0].1) && FieldValid(f[1].0, f[1].1) && FieldValid(f[2].0, f[2].1);
      assert FieldValid(f[3].0, f[3].1) && FieldValid(f[4].0, f[4].1) && FieldValid(f[5].0, f[5].1);
      assert FieldValid(f[6].0, f[6].1) && FieldValid(f[7].0, f[7].1);
    }
  }

  /** A login passes validation exactly when username and password are non-empty. */
  lemma LoginValidMeans(r: LoginReq)
    ensures LoginValid(r) <==> r.username != "" && r.password != ""
  {
    var f := LoginFields(r);
    RequiredTag(Str(r.username));
    RequiredTag(Str(r.password));
    if LoginValid(r) {
      assert FieldValid(f[0].0, f[0].1) && FieldValid(f[1].0, f[1].1);
    }
  }

  /**
   * A swipe passes validation exactly when both ids are non-zero (negative ids pass) and
   * the action is "like" or "pass".
   */
  lemma SwipeValidMeans(r: SwipeReq)
    ensures SwipeValid(r) <==> r.id != 0 && r.targetId != 0 && r.action in ["like", "pass"]
  {
    var f := SwipeFields(r);
    RequiredTag(Int(r.id));
    RequiredTag(Int(r.targetId));
    RequiredOneOfTags(Str(r.action), ["like", "pass"]);
    if SwipeValid(r) {
      assert FieldValid(f[0].0, f[0].1) && FieldValid(f[1].0, f[1].1) && FieldValid(f[2].0, f[2].1);
    }
  }
}

/**
 The user data-transfer object: its constructor defaults, how it is read from a
 user model record, and the attribute array it writes back to the model.
 */
module UserDto {
  import opened Wrappers
  import opened PhpValues

  /** The attributes of a user model record that the DTO reads. */
  datatype UserModel = UserModel(
    username: Value,
    name: Value,
    email: Value,
    password: Value,
    phone: Option<string>,
    bio: Option<string>,
    isActive: Option<bool>,
    locale: Option<string>,
    emailVerifiedAt: Option<Instant>,
    addressLine1: Option<string>,
    addressLine2: Option<string>,
    city: Option<string>,
    state: Option<string>,
    postalCode: Option<string>,
    country: Option<string>)

  /** The DTO: four required strings, an activity flag and ten nullable fields. */
  datatype UserData = UserData(
    username: string,
    name: string,
    email: string,
    password: string,
    phone: Option<string>,
    bio: Option<string>,
    isActive: bool,
    locale: Option<string>,
    emailVerifiedAt: Option<Instant>,
    addressLine1: Option<string>,
    addressLine2: Option<string>,
    city: Option<string>,
    state: Option<string>,
    postalCode: Option<string>,
    country: Option<string>)

  /** The constructor given only the required arguments: active, every nullable field null. */
  function New(username: string, name: string, email: string, password: string): (d: UserData)
    ensures d.username == username && d.name == name && d.email == email && d.password == password
    ensures d.isActive
    ensures d.phone.None? && d.bio.None? && d.locale.None? && d.emailVerifiedAt.None?
    ensures d.addressLine1.None? && d.addressLine2.None? && d.city.None? && d.state.None?
    ensures d.postalCode.None? && d.country.None?
  {
    UserData(username, name, email, password, None, None, true, None, None, None, None, None, None, None, None)
  }

  /** A required attribute as the DTO stores it: a scalar cast to string, anything else the empty string. */
  function RequiredString(v: Value): (s: string)
    ensures v.Time? || v.Null? || v.Composite? ==> s == ""
    ensures v.Str? ==> s == v.s
    ensures v.Int? ==> s == IntToDecimal(v.i)
    ensures v.Bool? ==> s == (if v.b then "1" else "")
  {
    if IsScalar(v) then ToPhpString(v) else ""
  }

  /** The DTO of a user model record. */
  function FromModel(u: UserModel): (d: UserData)
    ensures !IsScalar(u.username) ==> d.username == ""
    ensures !IsScalar(u.name) ==> d.name == ""
    ensures !IsScalar(u.email) ==> d.email == ""
    ensures !IsScalar(u.password) ==> d.password == ""
    ensures IsScalar(u.username) ==> d.username == ToPhpString(u.username)
    ensures IsScalar(u.name) ==> d.name == ToPhpString(u.name)
    ensures IsScalar(u.email) ==> d.email == ToPhpString(u.email)
    ensures IsScalar(u.password) ==> d.password == ToPhpString(u.password)
    ensures u.username.Str? ==> d.username == u.username.s
    ensures u.name.Str? ==> d.name == u.name.s
    ensures u.email.Str? ==> d.email == u.email.s
    ensures u.password.Str? ==> d.password == u.password.s
    ensures d.isActive <==> u.isActive != Some(false)
    ensures d.emailVerifiedAt == u.emailVerifiedAt
    ensures d.phone == u.phone && d.bio == u.bio && d.locale == u.locale
    ensures d.addressLine1 == u.addressLine1 && d.addressLine2 == u.addressLine2
    ensures d.city == u.city && d.state == u.state && d.postalCode == u.postalCode && d.country == u.country
  {
    UserData(
      username := RequiredString(u.username),
      name := RequiredString(u.name),
      email := RequiredString(u.email),
      password := RequiredString(u.password),
      phone := u.phone,
      bio := u.bio,
      isActive := if u.isActive.Some? then u.isActive.value else true,
      locale := u.locale,
      emailVerifiedAt := if u.emailVerifiedAt.Some? then Some(u.emailVerifiedAt.value) else None,
      addressLine1 := u.addressLine1,
      addressLine2 := u.addressLine2,
      city := u.city,
      state := u.state,
      postalCode := u.postalCode,
      country := u.country)
  }

  /** A nullable string as an attribute value. */
  function NullableString(o: Option<string>): Value {
    match o
    case None => Null
    case Some(s) => Str(s)
  }

  /** A nullable instant as an attribute value. */
  function NullableInstant(o: Option<Instant>): Value {
    match o
    case None => Null
    case Some(t) => Time(t)
  }

  /** A nullable flag as an attribute value. */
  function NullableBool(o: Option<bool>): Value {
    match o
    case None => Null
    case Some(b) => Bool(b)
  }

  /** The fifteen attribute names the DTO writes. */
  const ModelKeys: set<string> := {
    "username", "name", "email", "password", "phone", "bio", "is_active", "locale", "email_verified_at",
    "address_line1", "address_line2", "city", "state", "postal_code", "country"
  }

  /** The attribute array written back to the model. */
  function ToModelArray(d: UserData): (m: map<string, Value>)
    ensures m.Keys == ModelKeys
  {
    map[
      "username" := Str(d.username),
      "name" := Str(d.name),
      "email" := Str(d.email),
      "password" := Str(d.password),
      "phone" := NullableString(d.phone),
      "bio" := NullableString(d.bio),
      "is_active" := Bool(d.isActive),
      "locale" := NullableString(d.locale),
      "email_verified_at" := NullableInstant(d.emailVerifiedAt),
      "address_line1" := NullableString(d.addressLine1),
      "address_line2" := NullableString(d.addressLine2),
      "city" := NullableString(d.city),
      "state" := NullableString(d.state),
      "postal_code" := NullableString(d.postalCode),
      "country" := NullableString(d.country)
    ]
  }

  /** The same fifteen attributes, as they stand on a model record. */
  function Attributes(u: UserModel): map<string, Value> {
    map[
      "username" := u.username,
      "name" := u.name,
      "email" := u.email,
      "password" := u.password,
      "phone" := NullableString(u.phone),
      "bio" := NullableString(u.bio),
      "is_active" := NullableBool(u.isActive),
      "locale" := NullableString(u.locale),
      "email_verified_at" := NullableInstant(u.emailVerifiedAt),
      "address_line1" := NullableString(u.addressLine1),
      "address_line2" := NullableString(u.addressLine2),
      "city" := NullableString(u.city),
      "state" := NullableString(u.state),
      "postal_code" := NullableString(u.postalCode),
      "country" := NullableString(u.country)
    ]
  }

  /** The model record whose attributes are exactly the DTO's fields. */
  function ModelOf(d: UserData): UserModel {
    UserModel(Str(d.username), Str(d.name), Str(d.email), Str(d.password), d.phone, d.bio, Some(d.isActive),
              d.locale, d.emailVerifiedAt, d.addressLine1, d.addressLine2, d.city, d.state, d.postalCode, d.country)
  }

  /** A record with string required attributes and a set activity flag comes back unchanged through the DTO. */
  lemma ModelRoundTrip(u: UserModel)
    requires u.username.Str? && u.name.Str? && u.email.Str? && u.password.Str?
    requires u.isActive.Some?
    ensures ToModelArray(FromModel(u)) == Attributes(u)
  {
  }

  /** Every DTO is read back unchanged from the record that stores its fields. */
  lemma DtoRoundTrip(d: UserData)
    ensures FromModel(ModelOf(d)) == d
    ensures Attributes(ModelOf(d)) == ToModelArray(d)
  {
  }

  /** The attribute array has exactly fifteen entries. */
  lemma ModelArraySize(d: UserData)
    ensures |ToModelArray(d)| == 15
  {
    KeyCount();
    SizeOfKeys(ToModelArray(d), ModelKeys);
  }

  lemma KeyCount()
    ensures |ModelKeys| == 15
  {
  }

  lemma SizeOfKeys(m: map<string, Value>, keys: set<string>)
    requires m.Keys == keys
    ensures |m| == |keys|
  {
  }

  /** Each of the fifteen attributes holds the same-named DTO field. */
  lemma ModelArrayEntries(d: UserData)
    ensures var m := ToModelArray(d);
            && m["username"] == Str(d.username) && m["name"] == Str(d.name)
            && m["email"] == Str(d.email) && m["password"] == Str(d.password)
            && m["phone"] == NullableString(d.phone) && m["bio"] == NullableString(d.bio)
            && m["is_active"] == Bool(d.isActive) && m["locale"] == NullableString(d.locale)
            && m["email_verified_at"] == NullableInstant(d.emailVerifiedAt)
            && m["address_line1"] == NullableString(d.addressLine1)
            && m["address_line2"] == NullableString(d.addressLine2)
            && m["city"] == NullableString(d.city) && m["state"] == NullableString(d.state)
            && m["postal_code"] == NullableString(d.postalCode) && m["country"] == NullableString(d.country)
  {
  }

  /** The attribute array loses nothing: different DTOs write different arrays. */
  lemma ToModelArrayInjective(d1: UserData, d2: UserData)
    requires ToModelArray(d1) == ToModelArray(d2)
    ensures d1 == d2
  {
    ModelArrayEntries(d1);
    ModelArrayEntries(d2);
  }

}

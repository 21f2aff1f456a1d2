/**
 * The user record (`LDUser`), its built-in attribute registry (`UserAttribute`)
 * and attribute resolution for flag evaluation.
 */
module Users {
  import opened Wrappers

  /** A custom attribute value (Gson's `JsonElement`); numbers are kept as reals. */
  datatype Json =
    | JNull
    | JBool(b: bool)
    | JNumber(n: real)
    | JString(s: string)
    | JArray(elements: seq<Json>)
    | JObject(members: map<string, Json>)

  /**
   * An immutable user record. Every optional field is `None` where the Java
   * field is `null`; the country is stored as its alpha-2 code.
   */
  datatype User = User(
    key: Option<string>,
    secondary: Option<string>,
    ip: Option<string>,
    email: Option<string>,
    name: Option<string>,
    avatar: Option<string>,
    firstName: Option<string>,
    lastName: Option<string>,
    anonymous: Option<bool>,
    country: Option<string>,
    custom: Option<map<string, Json>>,
    privateAttributeNames: Option<set<string>>)

  /** `new LDUser(key)`: a user with only a key. */
  function UserWithKey(key: string): (u: User)
    ensures u.key == Some(key) && u.custom.None? && u.privateAttributeNames.None?
  {
    User(Some(key), None, None, None, None, None, None, None, None, None, None, None)
  }

  /** The key as the encoder writes it: the empty string for a null key. */
  function KeyAsString(u: User): (r: string)
    ensures u.key.Some? ==> r == u.key.value
    ensures r == "" <==> u.key.None? || u.key == Some("")
  {
    if u.key.None? then "" else u.key.value
  }

  /** The built-in attributes, one per constant of the `UserAttribute` enum. */
  datatype Attribute = Key | Secondary | Ip | Email | Avatar | FirstName | LastName | Name | Anonymous | Country

  /** `UserAttribute.values()`. */
  const BuiltIns: seq<Attribute> := [Key, Secondary, Ip, Email, Avatar, FirstName, LastName, Name, Anonymous, Country]

  /** The attribute's `name()`, which is also its wire name. */
  function AttributeName(a: Attribute): string
  {
    match a
    case Key => "key"
    case Secondary => "secondary"
    case Ip => "ip"
    case Email => "email"
    case Avatar => "avatar"
    case FirstName => "firstName"
    case LastName => "lastName"
    case Name => "name"
    case Anonymous => "anonymous"
    case Country => "country"
  }

  /** The built-in attribute called `n`, if there is one. */
  function BuiltInNamed(n: string): (r: Option<Attribute>)
    ensures r.Some? ==> AttributeName(r.value) == n
    ensures r.None? ==> forall a: Attribute :: AttributeName(a) != n
  {
    if n == "key" then Some(Key)
    else if n == "secondary" then Some(Secondary)
    else if n == "ip" then Some(Ip)
    else if n == "email" then Some(Email)
    else if n == "avatar" then Some(Avatar)
    else if n == "firstName" then Some(FirstName)
    else if n == "lastName" then Some(LastName)
    else if n == "name" then Some(Name)
    else if n == "anonymous" then Some(Anonymous)
    else if n == "country" then Some(Country)
    else None
  }

  /** The string held by a built-in attribute other than the anonymous flag. */
  function TextOf(u: User, a: Attribute): Option<string>
    requires a != Anonymous
  {
    match a
    case Key => u.key
    case Secondary => u.secondary
    case Ip => u.ip
    case Email => u.email
    case Avatar => u.avatar
    case FirstName => u.firstName
    case LastName => u.lastName
    case Name => u.name
    case Country => u.country
  }

  /** The accessor each `UserAttribute` constant carries: the field as a JSON primitive. */
  function AttributeValue(u: User, a: Attribute): Option<Json>
  {
    if a == Anonymous then
      if u.anonymous.None? then None else Some(JBool(u.anonymous.value))
    else if TextOf(u, a).None? then None
    else Some(JString(TextOf(u, a).value))
  }

  /** `getCustom`: the custom value for `n`, absent when there is no custom map. */
  function GetCustom(u: User, n: string): Option<Json>
  {
    if u.custom.Some? && n in u.custom.value then Some(u.custom.value[n]) else None
  }

  /** Attribute resolution: a built-in name always resolves to the built-in field. */
  function Resolve(u: User, n: string): Option<Json>
  {
    match BuiltInNamed(n)
    case Some(a) => AttributeValue(u, a)
    case None => GetCustom(u, n)
  }

  /** No two built-in attributes share a name. */
  lemma AttributeNamesDistinct(a: Attribute, b: Attribute)
    ensures AttributeName(a) == AttributeName(b) ==> a == b
  {
  }

  /** Every `Attribute` is listed by `UserAttribute.values()`. */
  lemma BuiltInsComplete(a: Attribute)
    ensures a in BuiltIns
  {
  }

  /**
   * `getValueForEvaluation`: scan the built-in attributes for one called `n`
   * and read it off the user; otherwise fall through to the custom map.
   */
  method ValueForEvaluation(u: User, n: string) returns (r: Option<Json>)
    ensures r == Resolve(u, n)
  {
    var i := 0;
    while i < |BuiltIns|
      invariant 0 <= i <= |BuiltIns|
      invariant forall j :: 0 <= j < i ==> AttributeName(BuiltIns[j]) != n
    {
      if AttributeName(BuiltIns[i]) == n {
        AttributeNamesDistinct(BuiltIns[i], BuiltInNamed(n).value);
        return AttributeValue(u, BuiltIns[i]);
      }
      i := i + 1;
    }
    if BuiltInNamed(n).Some? {
      BuiltInsComplete(BuiltInNamed(n).value);
    }
    r := GetCustom(u, n);
  }

  /**
   * A built-in name resolves to the built-in field, present or absent, even
   * when the custom map holds an entry of the same name.
   */
  lemma BuiltInShadowsCustom(u: User, a: Attribute)
    ensures Resolve(u, AttributeName(a)) == AttributeValue(u, a)
    ensures AttributeValue(u, a).None? <==>
      (match a
       case Key => u.key.None?
       case Secondary => u.secondary.None?
       case Ip => u.ip.None?
       case Email => u.email.None?
       case Avatar => u.avatar.None?
       case FirstName => u.firstName.None?
       case LastName => u.lastName.None?
       case Name => u.name.None?
       case Anonymous => u.anonymous.None?
       case Country => u.country.None?)
  {
    AttributeNamesDistinct(a, BuiltInNamed(AttributeName(a)).value);
  }

  /**
   * Any other name resolves to the custom value, and to nothing when the
   * custom map is null or lacks the key.
   */
  lemma CustomFallThrough(u: User, n: string)
    requires forall a: Attribute :: AttributeName(a) != n
    ensures Resolve(u, n).Some? <==> u.custom.Some? && n in u.custom.value
    ensures Resolve(u, n).Some? ==> Resolve(u, n).value == u.custom.value[n]
  {
  }
}

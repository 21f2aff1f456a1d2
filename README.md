# LDUser: user records, the builder, and the privacy-filtering encoder

This project models the user record of the LaunchDarkly Java client
(`LDUser`) and proves properties about it. The model has four parts:

- **`Users`** (`users.dfy`): the immutable user record, with a key, seven
  optional string attributes, an optional anonymous flag, an optional country
  code, an optional custom-attribute map and an optional per-user set of
  private attribute names. It also holds the registry of built-in attribute
  names and attribute resolution (`getValueForEvaluation`, `getCustom`).
- **`Privacy`** (`privacy.dfy`): the analytics encoder
  (`UserAdapterWithPrivateAttributeBehavior.write`). It turns a user and the
  two privacy settings (`allAttributesPrivate` and the configured private
  names) into the fields of the wire object, in a fixed order. `Write` runs
  as the source does: it keeps a set of withheld names and appends fields
  one by one. It is proved equal to the declarative `Encoded`. The
  properties are lemmas about `Encoded`.
- **`Builders`** (`builders.dfy`): `LDUser.Builder` as a class whose fields
  the setters overwrite. `State()` gives the builder's fields as one value.
  Each setter's `ensures` gives the whole new state and the warnings it logs.
  Pure functions specify `addPrivate`, `custom`, the null-dropping list
  setters, country selection and the copy constructor, and lemmas state what
  the source promises about them.
- **`Wrappers`** (`wrappers.dfy`): `Option` (Java `null`) and `Result` (a call
  that may throw).

A Java `null` is `None` throughout. Custom values (`JsonElement`) are the
`Json` datatype. The country tables (`LDCountryCode`) are a `CountryTable`
value holding three lookup functions, passed to the methods that need them.
Logging is a ghost list of warnings on the builder; `build` appends the
empty-key warning to it.

In these places the code behaves in a way a reader may not expect; the model
follows the code:

- `privateAttrs` starts from the configured private names
  (`LDUser.java:195`). So every configured name is listed even when the user
  lacks that attribute, not only names of attributes the user has
  (`Privacy.ConfiguredNamesAlwaysListed`).
- `country(String)` stores the code lookup's result before doing anything
  else (`LDUser.java:413`). An unresolvable text therefore clears a country
  set earlier instead of leaving it unchanged
  (`Builders.FailedLookupClearsCountry`).
- `getByCode(s, false)` is called with case sensitivity off. Whatever it
  matches is decided by the abstract `CountryTable.byCode`.

## Model

| member | source | states |
|---|---|---|
| `Users.UserWithKey` | src/main/java/com/launchdarkly/client/LDUser.java:81-85 | `new LDUser(key)` holds that key, with no custom map and no private-name set |
| `Users.BuiltInNamed` | src/main/java/com/launchdarkly/client/LDUser.java:89-93 | the built-in attribute whose name is `n`. If none is returned, no built-in carries that name |
| `Users.AttributeNamesDistinct` | src/main/java/com/launchdarkly/client/LDUser.java:89-92 | no two built-in attributes share a name, so the scan can match at most one |
| `Users.ValueForEvaluation` | src/main/java/com/launchdarkly/client/LDUser.java:87-95 | the scan over the built-ins returns exactly what `Resolve` specifies: the built-in's value for a built-in name, otherwise the custom lookup |
| `Users.BuiltInShadowsCustom` | src/main/java/com/launchdarkly/client/LDUser.java:87-95 | a built-in name resolves to that built-in field, even when the custom map has the same key. It resolves to nothing exactly when the field is null |
| `Users.CustomFallThrough` | src/main/java/com/launchdarkly/client/LDUser.java:145-150 | `getCustom` (`Users.GetCustom`), reached for every non-built-in name: a value iff the custom map exists and has that key, and then that key's value |
| `Privacy.CheckAndAddPrivate` | src/main/java/com/launchdarkly/client/LDUser.java:262-268 | returns true iff all attributes are private, or the name is configured private, or it is in the user's private set. The name is added to the withheld set exactly then |
| `Privacy.WriteBuiltIn` | src/main/java/com/launchdarkly/client/LDUser.java:201-205 | one built-in block appends the field iff the attribute is present and not private. It adds the name to the withheld set iff present and private |
| `Privacy.WriteCustomAttrs` | src/main/java/com/launchdarkly/client/LDUser.java:270-289 | the loop over custom entries appends one `custom` object of the non-private entries, but only if there is at least one. It adds every private custom key to the withheld set |
| `Privacy.WritePrivateAttrNames` | src/main/java/com/launchdarkly/client/LDUser.java:250-260 | `privateAttrs` is appended iff the withheld set is non-empty, and it lists that set |
| `Privacy.Write` | src/main/java/com/launchdarkly/client/LDUser.java:188-248 | the imperative encoder produces exactly the wire object `Encoded` |
| `Privacy.FieldOrder` | src/main/java/com/launchdarkly/client/LDUser.java:197-247 | the output's field names are a subsequence of key, secondary, ip, email, name, avatar, firstName, lastName, anonymous, country, custom, privateAttrs. So each name appears at most once, in that order |
| `Users.KeyAsString` | src/main/java/com/launchdarkly/client/LDUser.java:101-107 | a present key is returned as is; the result is `""` exactly when the key is null or empty |
| `Privacy.KeyNeverRedacted` | src/main/java/com/launchdarkly/client/LDUser.java:198-199 | under every configuration the output begins with `key`, holding the key or `""` for a null key |
| `Privacy.AnonymousNeverRedacted` | src/main/java/com/launchdarkly/client/LDUser.java:236-238 | `anonymous` is written with the user's flag iff the flag is present, whatever the privacy settings |
| `Privacy.BuiltInGating` | src/main/java/com/launchdarkly/client/LDUser.java:201-243 | each of secondary, ip, email, name, avatar, firstName, lastName and country is written, with its value, iff present and not private. Otherwise it is absent from the output |
| `Privacy.CustomObjectContents` | src/main/java/com/launchdarkly/client/LDUser.java:270-289 | `custom` is written iff some custom entry is not private. It holds exactly those entries with their values. A user with no custom map gets no `custom` field |
| `Privacy.WithheldMembers` | src/main/java/com/launchdarkly/client/LDUser.java:262-268 | a name is listed iff it is configured private, or it tests private and is a present built-in or a custom key |
| `Privacy.PrivateAttrsContents` | src/main/java/com/launchdarkly/client/LDUser.java:250-260 | `privateAttrs` is written iff the withheld set is non-empty, and it holds that set of names (never values) |
| `Privacy.ConfiguredNamesAlwaysListed` | src/main/java/com/launchdarkly/client/LDUser.java:194-195 | with any configured private name, `privateAttrs` is written and includes every configured name, whether or not the user has it |
| `Privacy.AllPrivateWithholdsEverything` | src/main/java/com/launchdarkly/client/LDUser.java:262-266 | with `allAttributesPrivate`, only key, anonymous and privateAttrs are written. Every present built-in and every custom key is listed |
| `Privacy.ShadowedCustomStillWritten` | src/main/java/com/launchdarkly/client/LDUser.java:275-284 | a non-private custom entry named like a built-in resolves to the built-in, yet is written under `custom` with its own value |
| `Builders.CustomWarnings` | src/main/java/com/launchdarkly/client/LDUser.java:821-828 | a warning is logged iff the custom name is non-null and equals a built-in attribute's name |
| `Builders.CompactConcat` | src/main/java/com/launchdarkly/client/LDUser.java:668-676 | dropping null list elements distributes over concatenation, so the order of the kept elements is preserved |
| `Builders.CompactMembers` | src/main/java/com/launchdarkly/client/LDUser.java:670-674 | an element is kept iff it occurs non-null in the list |
| `Builders.CompactWithoutNulls` | src/main/java/com/launchdarkly/client/LDUser.java:706-714 | a list without nulls is stored whole, element for element |
| `Builders.FirstNamed` | src/main/java/com/launchdarkly/client/LDUser.java:422-427 | the index of the first candidate whose name equals `s`. If none is returned, no candidate from `from` on has that name |
| `Builders.CodeLookupWins` | src/main/java/com/launchdarkly/client/LDUser.java:412-415 | a successful code lookup is the country, with no warning |
| `Builders.FailedLookupClearsCountry` | src/main/java/com/launchdarkly/client/LDUser.java:413-419 | a failed lookup with no name candidates leaves the country null and logs an invalid-country warning |
| `Builders.SingleCandidateChosen` | src/main/java/com/launchdarkly/client/LDUser.java:430-432 | a single name candidate is the country, with no warning |
| `Builders.ExactNameChosen` | src/main/java/com/launchdarkly/client/LDUser.java:420-427 | among several candidates, the first whose name equals `s` is chosen, with no warning |
| `Builders.AmbiguousNameTakesFirst` | src/main/java/com/launchdarkly/client/LDUser.java:428-429 | among several candidates none named `s`, the first is chosen and an ambiguity warning is logged |
| `Builders.SelectedIsCandidate` | src/main/java/com/launchdarkly/client/LDUser.java:412-436 | the country is null iff the lookup failed and there are no candidates. Otherwise it is the lookup's result or one of the candidates |
| `Builders.KeyCopiedAsWritten` | src/main/java/com/launchdarkly/client/LDUser.java:337-342 | the copy constructor's key step, as written, throws exactly for a null key and otherwise copies the key |
| `Builders.NullKeyCopyThrows` | src/main/java/com/launchdarkly/client/LDUser.java:58-62 | a builder with a null key builds a user with a null key, and copying that user throws |
| `Builders.CopyRoundTrip` | src/main/java/com/launchdarkly/client/LDUser.java:336-354 | `new Builder(u).build()` equals `u` field by field, null key included |
| `Builders.SeedOfSnapshot` | src/main/java/com/launchdarkly/client/LDUser.java:58-74 | building and copying back restores the builder state when `valueOf` maps the stored country's code back to it |
| `Builders.KeyConstructorMatchesBuilder` | src/main/java/com/launchdarkly/client/LDUser.java:81-85 | `new LDUser(key)` equals `new Builder(key).build()` |
| `Builders.UserBuilder.constructor` | src/main/java/com/launchdarkly/client/LDUser.java:327-329 | a new builder holds the key and nothing else, and has logged nothing |
| `Builders.UserBuilder.FromUser` | src/main/java/com/launchdarkly/client/LDUser.java:336-354 | the builder holds a copy of every field of `u`, with the country looked up by `valueOf` |
| `Builders.UserBuilder.Ip` | src/main/java/com/launchdarkly/client/LDUser.java:362-365 | only `ip` changes, to the argument, and nothing is logged |
| `Builders.UserBuilder.Secondary` | src/main/java/com/launchdarkly/client/LDUser.java:386-389 | only `secondary` changes, to the argument |
| `Builders.UserBuilder.FirstName` | src/main/java/com/launchdarkly/client/LDUser.java:481-484 | only `firstName` changes, to the argument |
| `Builders.UserBuilder.Anonymous` | src/main/java/com/launchdarkly/client/LDUser.java:505-508 | only `anonymous` changes, to the argument |
| `Builders.UserBuilder.LastName` | src/main/java/com/launchdarkly/client/LDUser.java:516-519 | only `lastName` changes, to the argument |
| `Builders.UserBuilder.Name` | src/main/java/com/launchdarkly/client/LDUser.java:539-542 | only `name` changes, to the argument |
| `Builders.UserBuilder.Avatar` | src/main/java/com/launchdarkly/client/LDUser.java:561-564 | only `avatar` changes, to the argument |
| `Builders.UserBuilder.Email` | src/main/java/com/launchdarkly/client/LDUser.java:584-587 | only `email` changes, to the argument |
| `Builders.UserBuilder.Country` | src/main/java/com/launchdarkly/client/LDUser.java:459-462 | only `country` changes, to the argument unchanged and unchecked |
| `Builders.UserBuilder.CountryByText` | src/main/java/com/launchdarkly/client/LDUser.java:412-436 | only `country` changes, to `ResolveCountry`'s choice. The invalid or ambiguous warning is logged as `SelectWarnings` says |
| `Builders.UserBuilder.AddPrivate` | src/main/java/com/launchdarkly/client/LDUser.java:830-835 | the private-name set is created if null and gains the name. Nothing else changes |
| `Builders.UserBuilder.PrivateIp` | src/main/java/com/launchdarkly/client/LDUser.java:373-376 | "ip" joins the private-name set and `ip` is set. Nothing else changes |
| `Builders.UserBuilder.PrivateSecondary` | src/main/java/com/launchdarkly/client/LDUser.java:397-400 | "secondary" joins the private-name set and `secondary` is set |
| `Builders.UserBuilder.PrivateCountryByText` | src/main/java/com/launchdarkly/client/LDUser.java:448-451 | "country" joins the private-name set, then the country is resolved from the text |
| `Builders.UserBuilder.PrivateCountry` | src/main/java/com/launchdarkly/client/LDUser.java:470-473 | "country" joins the private-name set and `country` is set as given |
| `Builders.UserBuilder.PrivateFirstName` | src/main/java/com/launchdarkly/client/LDUser.java:493-496 | "firstName" joins the private-name set and `firstName` is set |
| `Builders.UserBuilder.PrivateLastName` | src/main/java/com/launchdarkly/client/LDUser.java:527-530 | "lastName" joins the private-name set and `lastName` is set |
| `Builders.UserBuilder.PrivateName` | src/main/java/com/launchdarkly/client/LDUser.java:550-553 | "name" joins the private-name set and `name` is set |
| `Builders.UserBuilder.PrivateAvatar` | src/main/java/com/launchdarkly/client/LDUser.java:572-575 | "avatar" joins the private-name set and `avatar` is set |
| `Builders.UserBuilder.PrivateEmail` | src/main/java/com/launchdarkly/client/LDUser.java:595-598 | "email" joins the private-name set and `email` is set |
| `Builders.UserBuilder.CustomText` | src/main/java/com/launchdarkly/client/LDUser.java:609-611 | a non-null string is stored as a JSON string. A null string or name changes nothing |
| `Builders.UserBuilder.CustomNumeric` | src/main/java/com/launchdarkly/client/LDUser.java:622-624 | a non-null number is stored as a JSON number. A null one changes nothing |
| `Builders.UserBuilder.CustomBool` | src/main/java/com/launchdarkly/client/LDUser.java:635-637 | a non-null boolean is stored as a JSON boolean. A null one changes nothing |
| `Builders.UserBuilder.Custom` | src/main/java/com/launchdarkly/client/LDUser.java:648-657 | with a null name or value, nothing changes. Otherwise the custom map, created if null, maps the name to the value, built-in names included. A warning is logged iff the name is a built-in's |
| `Builders.UserBuilder.CustomStringList` | src/main/java/com/launchdarkly/client/LDUser.java:668-676 | stores the list's non-null strings, in order, as a JSON array |
| `Builders.UserBuilder.CustomNumberList` | src/main/java/com/launchdarkly/client/LDUser.java:687-695 | stores the list's non-null numbers, in order, as a JSON array |
| `Builders.UserBuilder.CustomValues` | src/main/java/com/launchdarkly/client/LDUser.java:706-714 | stores the list's non-null JSON values, in order, as a JSON array |
| `Builders.UserBuilder.PrivateCustomText` | src/main/java/com/launchdarkly/client/LDUser.java:726-729 | the name joins the private-name set, then `custom(k, String)` applies |
| `Builders.UserBuilder.PrivateCustomNumeric` | src/main/java/com/launchdarkly/client/LDUser.java:741-744 | the name joins the private-name set, then `custom(k, Number)` applies |
| `Builders.UserBuilder.PrivateCustomBool` | src/main/java/com/launchdarkly/client/LDUser.java:756-759 | the name joins the private-name set, then `custom(k, Boolean)` applies |
| `Builders.UserBuilder.PrivateCustom` | src/main/java/com/launchdarkly/client/LDUser.java:771-774 | the name joins the private-name set, then `custom(k, JsonElement)` applies |
| `Builders.UserBuilder.PrivateCustomStringList` | src/main/java/com/launchdarkly/client/LDUser.java:786-789 | the name joins the private-name set, then the non-null strings are stored as an array |
| `Builders.UserBuilder.PrivateCustomNumberList` | src/main/java/com/launchdarkly/client/LDUser.java:801-804 | the name joins the private-name set, then the non-null numbers are stored as an array |
| `Builders.UserBuilder.PrivateCustomValues` | src/main/java/com/launchdarkly/client/LDUser.java:816-819 | the name joins the private-name set, then the non-null values are stored as an array |
| `Builders.UserBuilder.CheckCustomAttribute` | src/main/java/com/launchdarkly/client/LDUser.java:821-828 | the scan over built-in names logs one warning iff the name is a built-in's, and changes no field |
| `Builders.UserBuilder.Build` | src/main/java/com/launchdarkly/client/LDUser.java:58-74 | `build()` (`LDUser.java:842-844`) runs the `LDUser(Builder)` constructor, `Builders.Snapshot`: the user equals the builder's state field by field, with the country as its alpha-2 code; one `EmptyKey` warning is appended iff the key is null or empty; the builder's fields do not change |

## Left out

- Gson, the `JsonWriter` token stream and `IOException`: the wire object is a sequence of (name, value) fields. The `custom` object is a map and `privateAttrs` is a set, so the iteration order of the Java hash map and hash set is not modelled.
- `write` with a null user (it writes a JSON null) and `read` (it returns null): both are trivial and not modelled.
- The `LDCountryCode` tables, `getByCode`, `findByName` and `Pattern.quote`: these are library code and are not part of this model. They are the three functions of a `CountryTable`, and `Coherent` states the one property the round trip needs.
- Builders.UserBuilder.FromUser: requires that `valueOf` accepts the user's country code. The Java code throws `IllegalArgumentException` otherwise, which cannot happen for a country that a builder stored.
- Builders.UserBuilder.FromUser: copies a null key as null (the corrected behaviour, see Findings). The as-written throw is modelled separately by `KeyCopiedAsWritten`.
- Builders.UserBuilder.PrivateCustom: take a non-null name. With a null name, the Java code puts `null` into the private-name hash set, and a later `build()` then throws `NullPointerException`, because `ImmutableSet.copyOf` refuses a null element (`LDUser.java:73`). The model has no null private name, so it does not capture that failure.
- Builders.UserBuilder.PrivateCustomText: take a non-null name. With a null name, the Java code puts `null` into the private-name hash set, and a later `build()` then throws `NullPointerException`, because `ImmutableSet.copyOf` refuses a null element (`LDUser.java:73`). The model has no null private name, so it does not capture that failure.
- Builders.UserBuilder.PrivateCustomNumeric: take a non-null name. With a null name, the Java code puts `null` into the private-name hash set, and a later `build()` then throws `NullPointerException`, because `ImmutableSet.copyOf` refuses a null element (`LDUser.java:73`). The model has no null private name, so it does not capture that failure.
- Builders.UserBuilder.PrivateCustomBool: take a non-null name. With a null name, the Java code puts `null` into the private-name hash set, and a later `build()` then throws `NullPointerException`, because `ImmutableSet.copyOf` refuses a null element (`LDUser.java:73`). The model has no null private name, so it does not capture that failure.
- Builders.UserBuilder.PrivateCustomStringList: take a non-null name. With a null name, the Java code puts `null` into the private-name hash set, and a later `build()` then throws `NullPointerException`, because `ImmutableSet.copyOf` refuses a null element (`LDUser.java:73`). The model has no null private name, so it does not capture that failure.
- Builders.UserBuilder.PrivateCustomNumberList: take a non-null name. With a null name, the Java code puts `null` into the private-name hash set, and a later `build()` then throws `NullPointerException`, because `ImmutableSet.copyOf` refuses a null element (`LDUser.java:73`). The model has no null private name, so it does not capture that failure.
- Builders.UserBuilder.PrivateCustomValues: take a non-null name. With a null name, the Java code puts `null` into the private-name hash set, and a later `build()` then throws `NullPointerException`, because `ImmutableSet.copyOf` refuses a null element (`LDUser.java:73`). The model has no null private name, so it does not capture that failure.
- Users.UserWithKey: takes a non-null key. `new LDUser((String) null)` throws `NullPointerException`, because `new JsonPrimitive(key)` (`LDUser.java:82`) refuses null. The builder path instead keeps a null key (`LDUser.java:62`), and that path is modelled.
- `country(String)`, `privateCountry(String)` and `customString`/`customNumber`/`customValues` with a null argument throw `NullPointerException` in Java. The model's argument types are non-null.
- SLF4J logging is a ghost list of warnings on the builder, with one constructor per message.
- `hashCode` is left out, and `equals` is datatype equality. Java `Number` values are reals, with no floating-point or `Number` subclass behaviour.
- Built-in attributes are stored as strings, not as `JsonPrimitive`s. `getKey` together with `getIp` and the other getters are field selectors.
- The source of the `UserAttribute` enum is not part of this model. Its ten constant names (key, secondary, ip, email, avatar, firstName, lastName, name, anonymous and country, `users.dfy` `Attribute` and `AttributeName`) are assumed, each read off the field of the same name; they match the names the encoder writes (`LDUser.java:202-240`). Their order only affects which constant the scan tries first.
- Builder setters return the builder for chaining. Chaining is sequential calls here.
- Defensive copying on `build` (`ImmutableMap.copyOf`, `ImmutableSet.copyOf`, `LDUser.java:72-73`) and on seeding (`new HashMap<>(user.custom)`, `LDUser.java:352`) copies only the map and the set; those copies are modelled by value semantics. The custom values themselves are not copied: `custom.put(k, v)` (`LDUser.java:654`) and `array.add(v)` (`LDUser.java:710`) keep the caller's own `JsonElement`, so a `JsonArray` or `JsonObject` passed to `custom(...)` stays shared between the caller, the builder and every user built from it, and a later mutation by the caller changes those users and what `write` sends. `Json` values are immutable, so this sharing is left out.
- Sharing built users across threads is not modelled (sequential model).

## Findings

| source | as written | input that shows it | evidently intended | confidence | as-written member | corrected member |
|---|---|---|---|---|---|---|
| src/main/java/com/launchdarkly/client/LDUser.java:337-342 | `Builder(LDUser)` calls `isJsonNull()` on the user's key primitive, which is a null reference when the key is null | `new Builder(new Builder((String) null).build())` throws `NullPointerException` | the dead `this.key = null` branch shows that a null key was meant to be copied as null | high, not executed | `Builders.KeyCopiedAsWritten` | `Builders.CopyRoundTrip` |

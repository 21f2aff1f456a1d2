/**
 * `LDUser.Builder`: a mutable object whose setters overwrite one field each,
 * record private names, store custom attributes and resolve country text;
 * `build` takes an immutable snapshot.
 */
module Builders {
  import opened Wrappers
  import Users

  /** A constant of the `LDCountryCode` enum: its alpha-2 code and its country name. */
  datatype CountryCode = CountryCode(alpha2: string, name: string)

  /**
   * The three `LDCountryCode` lookups the builder calls, whose tables are not
   * part of this model: `getByCode(s, false)`, `findByName` with the pattern
   * "names starting with `s`" (in table order), and `valueOf` on an alpha-2 code
   * (`None` where it would throw).
   */
  datatype CountryTable = CountryTable(
    byCode: string -> Option<CountryCode>,
    byNamePrefix: string -> seq<CountryCode>,
    byAlpha2: string -> Option<CountryCode>)

  /** `valueOf` returns the constant whose alpha-2 code it is given. */
  ghost predicate Coherent(t: CountryTable)
  {
    forall s :: t.byAlpha2(s).Some? ==> t.byAlpha2(s).value.alpha2 == s
  }

  /** The warnings the builder logs. */
  datatype Warning =
    | EmptyKey
    | InvalidCountry(text: string)
    | AmbiguousCountry(text: string)
    | BuiltInCustomKey(key: string)

  /** The fields of a builder, as one value. */
  datatype BuilderState = BuilderState(
    key: Option<string>,
    secondary: Option<string>,
    ip: Option<string>,
    firstName: Option<string>,
    lastName: Option<string>,
    email: Option<string>,
    name: Option<string>,
    avatar: Option<string>,
    anonymous: Option<bool>,
    country: Option<CountryCode>,
    custom: Option<map<string, Users.Json>>,
    privateAttrNames: Option<set<string>>)

  /** `new Builder(key)`: every other field null. */
  function NewState(key: Option<string>): BuilderState
  {
    BuilderState(key, None, None, None, None, None, None, None, None, None, None, None)
  }

  /**
   * `new LDUser(builder)`: the record copies every field, and keeps the
   * country as its alpha-2 code.
   */
  function Snapshot(st: BuilderState): Users.User
  {
    Users.User(st.key, st.secondary, st.ip, st.email, st.name, st.avatar, st.firstName, st.lastName,
               st.anonymous, if st.country.None? then None else Some(st.country.value.alpha2),
               st.custom, st.privateAttrNames)
  }

  function PrivateNamesOf(st: BuilderState): set<string>
  {
    if st.privateAttrNames.None? then {} else st.privateAttrNames.value
  }

  /** `addPrivate`: create the private-name set if needed and add `n` to it. */
  function WithPrivate(st: BuilderState, n: string): BuilderState
  {
    st.(privateAttrNames := Some(PrivateNamesOf(st) + {n}))
  }

  function CustomOf(st: BuilderState): map<string, Users.Json>
  {
    if st.custom.None? then map[] else st.custom.value
  }

  /**
   * `custom(k, v)`: a null name or a null value changes nothing; otherwise the
   * map is created if needed and `v` is stored under `k`, built-in names included.
   */
  function WithCustom(st: BuilderState, k: Option<string>, v: Option<Users.Json>): BuilderState
  {
    if k.Some? && v.Some? then st.(custom := Some(CustomOf(st)[k.value := v.value])) else st
  }

  /** `checkCustomAttribute`: a warning exactly when the name is a built-in's. */
  function CustomWarnings(k: Option<string>): (w: seq<Warning>)
    ensures w != [] <==> k.Some? && exists a: Users.Attribute :: Users.AttributeName(a) == k.value
    ensures w != [] ==> w == [BuiltInCustomKey(k.value)]
  {
    if k.Some? && Users.BuiltInNamed(k.value).Some? then [BuiltInCustomKey(k.value)] else []
  }

  // ---------------------------------------------------------------------------
  // Lists with null elements.

  /** The non-null elements of a Java list, in order. */
  function Compact<T>(vs: seq<Option<T>>): seq<T>
  {
    if vs == [] then [] else (if vs[0].Some? then [vs[0].value] else []) + Compact(vs[1..])
  }

  /** Dropping nulls keeps the order: it distributes over concatenation. */
  lemma {:induction false} CompactConcat<T>(a: seq<Option<T>>, b: seq<Option<T>>)
    ensures Compact(a + b) == Compact(a) + Compact(b)
  {
    if a == [] {
      assert a + b == b;
    } else {
      assert (a + b)[1..] == a[1..] + b;
      CompactConcat(a[1..], b);
    }
  }

  /** Exactly the non-null elements are kept. */
  lemma {:induction false} CompactMembers<T>(vs: seq<Option<T>>, x: T)
    ensures x in Compact(vs) <==> Some(x) in vs
  {
    if vs != [] {
      CompactMembers(vs[1..], x);
      assert vs == [vs[0]] + vs[1..];
    }
  }

  /** A list without nulls is kept whole. */
  lemma {:induction false} CompactWithoutNulls<T>(vs: seq<Option<T>>)
    requires forall i :: 0 <= i < |vs| ==> vs[i].Some?
    ensures |Compact(vs)| == |vs|
    ensures forall i :: 0 <= i < |vs| ==> Compact(vs)[i] == vs[i].value
  {
    if vs != [] {
      CompactWithoutNulls(vs[1..]);
    }
  }

  lemma CompactSnoc<T>(vs: seq<Option<T>>, i: nat)
    requires i < |vs|
    ensures Compact(vs[..i + 1]) == Compact(vs[..i]) + (if vs[i].Some? then [vs[i].value] else [])
  {
    assert vs[..i + 1] == vs[..i] + [vs[i]];
    CompactConcat(vs[..i], [vs[i]]);
    assert [vs[i]][1..] == [];
  }

  /** The elements of a string list as JSON primitives. */
  function JsonStrings(xs: seq<string>): seq<Users.Json>
  {
    if xs == [] then [] else JsonStrings(xs[..|xs| - 1]) + [Users.JString(xs[|xs| - 1])]
  }

  /** The elements of a number list as JSON primitives. */
  function JsonNumbers(xs: seq<real>): seq<Users.Json>
  {
    if xs == [] then [] else JsonNumbers(xs[..|xs| - 1]) + [Users.JNumber(xs[|xs| - 1])]
  }

  lemma JsonStringsSnoc(xs: seq<string>, x: string)
    ensures JsonStrings(xs + [x]) == JsonStrings(xs) + [Users.JString(x)]
  {
    assert (xs + [x])[..|xs|] == xs;
  }

  lemma JsonNumbersSnoc(xs: seq<real>, x: real)
    ensures JsonNumbers(xs + [x]) == JsonNumbers(xs) + [Users.JNumber(x)]
  {
    assert (xs + [x])[..|xs|] == xs;
  }

  // ---------------------------------------------------------------------------
  // Country resolution.

  /** The first candidate from position `from` on whose name is exactly `s`. */
  function FirstNamed(cs: seq<CountryCode>, s: string, from: nat): (r: Option<nat>)
    requires from <= |cs|
    ensures r.Some? ==> from <= r.value < |cs| && cs[r.value].name == s
    ensures r.Some? ==> forall j :: from <= j < r.value ==> cs[j].name != s
    ensures r.None? ==> forall j :: from <= j < |cs| ==> cs[j].name != s
    decreases |cs| - from
  {
    if from == |cs| then None
    else if cs[from].name == s then Some(from)
    else FirstNamed(cs, s, from + 1)
  }

  /**
   * `country(s)` given the code lookup `byCode` and the name-prefix
   * candidates: the code lookup is stored first; failing that, no candidate
   * leaves the country null, one candidate is taken, and among several the
   * first exact name match wins, else the first candidate.
   */
  function SelectCountry(s: string, byCode: Option<CountryCode>, candidates: seq<CountryCode>): Option<CountryCode>
  {
    if byCode.Some? then byCode
    else if |candidates| == 0 then None
    else if |candidates| == 1 then Some(candidates[0])
    else match FirstNamed(candidates, s, 0)
      case Some(i) => Some(candidates[i])
      case None => Some(candidates[0])
  }

  /** The warnings `country(s)` logs. */
  function SelectWarnings(s: string, byCode: Option<CountryCode>, candidates: seq<CountryCode>): seq<Warning>
  {
    if byCode.Some? then []
    else if |candidates| == 0 then [InvalidCountry(s)]
    else if |candidates| > 1 && FirstNamed(candidates, s, 0).None? then [AmbiguousCountry(s)]
    else []
  }

  function ResolveCountry(t: CountryTable, s: string): Option<CountryCode>
  {
    SelectCountry(s, t.byCode(s), t.byNamePrefix(s))
  }

  function CountryWarnings(t: CountryTable, s: string): seq<Warning>
  {
    SelectWarnings(s, t.byCode(s), t.byNamePrefix(s))
  }

  /** A successful code lookup is kept as it is, silently. */
  lemma CodeLookupWins(s: string, c: CountryCode, candidates: seq<CountryCode>)
    ensures SelectCountry(s, Some(c), candidates) == Some(c)
    ensures SelectWarnings(s, Some(c), candidates) == []
  {
  }

  /**
   * A failed code lookup with no name candidates leaves the country null,
   * whatever was set before, and logs a warning.
   */
  lemma FailedLookupClearsCountry(s: string)
    ensures SelectCountry(s, None, []) == None
    ensures SelectWarnings(s, None, []) == [InvalidCountry(s)]
  {
  }

  /** A single name candidate is chosen, silently. */
  lemma SingleCandidateChosen(s: string, c: CountryCode)
    ensures SelectCountry(s, None, [c]) == Some(c)
    ensures SelectWarnings(s, None, [c]) == []
  {
  }

  /** Among several candidates, the first one named exactly `s` is chosen, silently. */
  lemma ExactNameChosen(s: string, candidates: seq<CountryCode>, i: nat)
    requires |candidates| > 1 && i < |candidates| && candidates[i].name == s
    requires forall j :: 0 <= j < i ==> candidates[j].name != s
    ensures SelectCountry(s, None, candidates) == Some(candidates[i])
    ensures SelectWarnings(s, None, candidates) == []
  {
    var r := FirstNamed(candidates, s, 0);
    assert r.Some? && r.value == i;
  }

  /** Among several candidates none of which is named `s`, the first is chosen, with a warning. */
  lemma AmbiguousNameTakesFirst(s: string, candidates: seq<CountryCode>)
    requires |candidates| > 1
    requires forall j :: 0 <= j < |candidates| ==> candidates[j].name != s
    ensures SelectCountry(s, None, candidates) == Some(candidates[0])
    ensures SelectWarnings(s, None, candidates) == [AmbiguousCountry(s)]
  {
  }

  /** The country chosen is the code lookup's result or one of the candidates. */
  lemma SelectedIsCandidate(s: string, byCode: Option<CountryCode>, candidates: seq<CountryCode>)
    ensures SelectCountry(s, byCode, candidates).None? <==> byCode.None? && candidates == []
    ensures SelectCountry(s, byCode, candidates) == byCode ||
            SelectCountry(s, byCode, candidates).value in candidates
  {
  }

  // ---------------------------------------------------------------------------
  // Copying a user into a builder.

  /** What the copy constructor can throw. */
  datatype JavaException = NullPointerException

  /**
   * The key as `Builder(LDUser)` copies it, as written: it asks the key's
   * JSON primitive whether it is a JSON null, which dereferences a null key.
   */
  function KeyCopiedAsWritten(key: Option<string>): (r: Result<Option<string>, JavaException>)
    ensures r.Failure? <==> key.None?
    ensures r.Success? ==> r.value == key
  {
    if key.None? then Failure(NullPointerException) else Success(key)
  }

  /**
   * A user built with a null key, which the builder allows, cannot be copied
   * back into a builder as written.
   */
  lemma NullKeyCopyThrows()
    ensures Snapshot(NewState(None)).key == None
    ensures KeyCopiedAsWritten(Snapshot(NewState(None)).key) == Failure(NullPointerException)
  {
  }

  /** `valueOf` accepts the user's country code (it cannot fail on one a builder stored). */
  predicate CountryKnown(t: CountryTable, u: Users.User)
  {
    u.country.Some? ==> t.byAlpha2(u.country.value).Some?
  }

  /**
   * `Builder(LDUser)`, with the key copied as intended (a null key stays
   * null): every field is copied, the country by `valueOf`, and the custom map
   * and private-name set are copied by value.
   */
  function Seed(t: CountryTable, u: Users.User): BuilderState
    requires CountryKnown(t, u)
  {
    BuilderState(u.key, u.secondary, u.ip, u.firstName, u.lastName, u.email, u.name, u.avatar,
                 u.anonymous, if u.country.None? then None else t.byAlpha2(u.country.value),
                 u.custom, u.privateAttributeNames)
  }

  /** Copying a user into a builder and building again gives an equal user. */
  lemma CopyRoundTrip(t: CountryTable, u: Users.User)
    requires Coherent(t) && CountryKnown(t, u)
    ensures Snapshot(Seed(t, u)) == u
  {
    if u.country.Some? {
      assert t.byAlpha2(u.country.value).value.alpha2 == u.country.value;
    }
  }

  /**
   * Building and copying back gives the same builder state, provided
   * `valueOf` maps the stored country's code back to it.
   */
  lemma SeedOfSnapshot(t: CountryTable, st: BuilderState)
    requires st.country.Some? ==> t.byAlpha2(st.country.value.alpha2) == Some(st.country.value)
    ensures CountryKnown(t, Snapshot(st)) && Seed(t, Snapshot(st)) == st
  {
  }

  /** `new LDUser(key)` is the user `new Builder(key).build()` makes. */
  lemma KeyConstructorMatchesBuilder(key: string)
    ensures Users.UserWithKey(key) == Snapshot(NewState(Some(key)))
  {
  }

  // ---------------------------------------------------------------------------
  // The builder object.

  class UserBuilder {
    var key: Option<string>
    var secondary: Option<string>
    var ip: Option<string>
    var firstName: Option<string>
    var lastName: Option<string>
    var email: Option<string>
    var name: Option<string>
    var avatar: Option<string>
    var anonymous: Option<bool>
    var country: Option<CountryCode>
    var custom: Option<map<string, Users.Json>>
    var privateAttrNames: Option<set<string>>
    /** The warnings logged so far. */
    ghost var warnings: seq<Warning>

    function State(): BuilderState
      reads this
    {
      BuilderState(key, secondary, ip, firstName, lastName, email, name, avatar,
                   anonymous, country, custom, privateAttrNames)
    }

    /** `Builder(String key)`. */
    constructor (key: Option<string>)
      ensures State() == NewState(key) && warnings == []
    {
      this.key := key;
      secondary, ip, firstName, lastName, email, name, avatar := None, None, None, None, None, None, None;
      anonymous, country, custom, privateAttrNames := None, None, None, None;
      warnings := [];
    }

    /** `Builder(LDUser user)`, copying a null key as null. */
    constructor FromUser(u: Users.User, t: CountryTable)
      requires CountryKnown(t, u)
      ensures State() == Seed(t, u) && warnings == []
    {
      key := u.key;
      secondary := u.secondary;
      ip := u.ip;
      firstName := u.firstName;
      lastName := u.lastName;
      email := u.email;
      name := u.name;
      avatar := u.avatar;
      anonymous := u.anonymous;
      country := if u.country.Some? then t.byAlpha2(u.country.value) else None;
      custom := u.custom;
      privateAttrNames := u.privateAttributeNames;
      warnings := [];
    }

    method Ip(s: Option<string>)
      modifies this
      ensures State() == old(State()).(ip := s) && warnings == old(warnings)
    {
      ip := s;
    }

    method Secondary(s: Option<string>)
      modifies this
      ensures State() == old(State()).(secondary := s) && warnings == old(warnings)
    {
      secondary := s;
    }

    method FirstName(s: Option<string>)
      modifies this
      ensures State() == old(State()).(firstName := s) && warnings == old(warnings)
    {
      firstName := s;
    }

    method LastName(s: Option<string>)
      modifies this
      ensures State() == old(State()).(lastName := s) && warnings == old(warnings)
    {
      lastName := s;
    }

    method Name(s: Option<string>)
      modifies this
      ensures State() == old(State()).(name := s) && warnings == old(warnings)
    {
      name := s;
    }

    method Avatar(s: Option<string>)
      modifies this
      ensures State() == old(State()).(avatar := s) && warnings == old(warnings)
    {
      avatar := s;
    }

    method Email(s: Option<string>)
      modifies this
      ensures State() == old(State()).(email := s) && warnings == old(warnings)
    {
      email := s;
    }

    method Anonymous(b: bool)
      modifies this
      ensures State() == old(State()).(anonymous := Some(b)) && warnings == old(warnings)
    {
      anonymous := Some(b);
    }

    /** `country(LDCountryCode)`: stored as given, without checks. */
    method Country(c: Option<CountryCode>)
      modifies this
      ensures State() == old(State()).(country := c) && warnings == old(warnings)
    {
      country := c;
    }

    /** `country(String)`: resolve the text through the country tables. */
    method CountryByText(s: string, t: CountryTable)
      modifies this
      ensures State() == old(State()).(country := ResolveCountry(t, s))
      ensures warnings == old(warnings) + CountryWarnings(t, s)
    {
      country := t.byCode(s);
      if country.None? {
        var codes := t.byNamePrefix(s);
        if |codes| == 0 {
          warnings := warnings + [InvalidCountry(s)];
        } else if |codes| > 1 {
          var i := 0;
          while i < |codes|
            invariant 0 <= i <= |codes|
            invariant forall j :: 0 <= j < i ==> codes[j].name != s
            invariant State() == old(State()).(country := None) && warnings == old(warnings)
          {
            if codes[i].name == s {
              country := Some(codes[i]);
              assert FirstNamed(codes, s, 0) == Some(i);
              return;
            }
            i := i + 1;
          }
          warnings := warnings + [AmbiguousCountry(s)];
          country := Some(codes[0]);
        } else {
          country := Some(codes[0]);
        }
      }
    }

    /** `addPrivate`. */
    method AddPrivate(n: string)
      modifies this
      ensures State() == WithPrivate(old(State()), n) && warnings == old(warnings)
    {
      if privateAttrNames.None? {
        privateAttrNames := Some({});
      }
      privateAttrNames := Some(privateAttrNames.value + {n});
    }

    method PrivateIp(s: Option<string>)
      modifies this
      ensures State() == WithPrivate(old(State()), "ip").(ip := s) && warnings == old(warnings)
    {
      AddPrivate("ip");
      Ip(s);
    }

    method PrivateSecondary(s: Option<string>)
      modifies this
      ensures State() == WithPrivate(old(State()), "secondary").(secondary := s) && warnings == old(warnings)
    {
      AddPrivate("secondary");
      Secondary(s);
    }

    method PrivateFirstName(s: Option<string>)
      modifies this
      ensures State() == WithPrivate(old(State()), "firstName").(firstName := s) && warnings == old(warnings)
    {
      AddPrivate("firstName");
      FirstName(s);
    }

    method PrivateLastName(s: Option<string>)
      modifies this
      ensures State() == WithPrivate(old(State()), "lastName").(lastName := s) && warnings == old(warnings)
    {
      AddPrivate("lastName");
      LastName(s);
    }

    method PrivateName(s: Option<string>)
      modifies this
      ensures State() == WithPrivate(old(State()), "name").(name := s) && warnings == old(warnings)
    {
      AddPrivate("name");
      Name(s);
    }

    method PrivateAvatar(s: Option<string>)
      modifies this
      ensures State() == WithPrivate(old(State()), "avatar").(avatar := s) && warnings == old(warnings)
    {
      AddPrivate("avatar");
      Avatar(s);
    }

    method PrivateEmail(s: Option<string>)
      modifies this
      ensures State() == WithPrivate(old(State()), "email").(email := s) && warnings == old(warnings)
    {
      AddPrivate("email");
      Email(s);
    }

    method PrivateCountry(c: Option<CountryCode>)
      modifies this
      ensures State() == WithPrivate(old(State()), "country").(country := c) && warnings == old(warnings)
    {
      AddPrivate("country");
      Country(c);
    }

    method PrivateCountryByText(s: string, t: CountryTable)
      modifies this
      ensures State() == WithPrivate(old(State()), "country").(country := ResolveCountry(t, s))
      ensures warnings == old(warnings) + CountryWarnings(t, s)
    {
      AddPrivate("country");
      CountryByText(s, t);
    }

    /** `checkCustomAttribute`: warn when a custom name is a built-in's. */
    method CheckCustomAttribute(k: Option<string>)
      modifies this
      ensures State() == old(State()) && warnings == old(warnings) + CustomWarnings(k)
    {
      if k.Some? {
        var i := 0;
        while i < |Users.BuiltIns|
          invariant 0 <= i <= |Users.BuiltIns|
          invariant forall j :: 0 <= j < i ==> Users.AttributeName(Users.BuiltIns[j]) != k.value
          invariant State() == old(State()) && warnings == old(warnings)
        {
          if Users.AttributeName(Users.BuiltIns[i]) == k.value {
            warnings := warnings + [BuiltInCustomKey(k.value)];
            return;
          }
          i := i + 1;
        }
        if Users.BuiltInNamed(k.value).Some? {
          Users.BuiltInsComplete(Users.BuiltInNamed(k.value).value);
        }
      }
    }

    /** `custom(String, JsonElement)`. */
    method Custom(k: Option<string>, v: Option<Users.Json>)
      modifies this
      ensures State() == WithCustom(old(State()), k, v)
      ensures warnings == old(warnings) + CustomWarnings(k)
    {
      CheckCustomAttribute(k);
      if k.Some? && v.Some? {
        if custom.None? {
          custom := Some(map[]);
        }
        custom := Some(custom.value[k.value := v.value]);
      }
    }

    /** `custom(String, String)`. */
    method CustomText(k: Option<string>, v: Option<string>)
      modifies this
      ensures State() == WithCustom(old(State()), k, if v.None? then None else Some(Users.JString(v.value)))
      ensures warnings == old(warnings) + CustomWarnings(k)
    {
      Custom(k, if v.None? then None else Some(Users.JString(v.value)));
    }

    /** `custom(String, Number)`. */
    method CustomNumeric(k: Option<string>, v: Option<real>)
      modifies this
      ensures State() == WithCustom(old(State()), k, if v.None? then None else Some(Users.JNumber(v.value)))
      ensures warnings == old(warnings) + CustomWarnings(k)
    {
      Custom(k, if v.None? then None else Some(Users.JNumber(v.value)));
    }

    /** `custom(String, Boolean)`. */
    method CustomBool(k: Option<string>, v: Option<bool>)
      modifies this
      ensures State() == WithCustom(old(State()), k, if v.None? then None else Some(Users.JBool(v.value)))
      ensures warnings == old(warnings) + CustomWarnings(k)
    {
      Custom(k, if v.None? then None else Some(Users.JBool(v.value)));
    }

    /** `customString`: store the non-null strings, in order, as a JSON array. */
    method CustomStringList(k: Option<string>, vs: seq<Option<string>>)
      modifies this
      ensures State() == WithCustom(old(State()), k, Some(Users.JArray(JsonStrings(Compact(vs)))))
      ensures warnings == old(warnings) + CustomWarnings(k)
    {
      var elements: seq<Users.Json> := [];
      for i := 0 to |vs|
        invariant elements == JsonStrings(Compact(vs[..i]))
        invariant State() == old(State()) && warnings == old(warnings)
      {
        CompactSnoc(vs, i);
        if vs[i].Some? {
          elements := elements + [Users.JString(vs[i].value)];
          JsonStringsSnoc(Compact(vs[..i]), vs[i].value);
          assert Compact(vs[..i + 1]) == Compact(vs[..i]) + [vs[i].value];
        } else {
          assert Compact(vs[..i + 1]) == Compact(vs[..i]);
        }
      }
      assert vs[..|vs|] == vs;
      Custom(k, Some(Users.JArray(elements)));
    }

    /** `customNumber`: store the non-null numbers, in order, as a JSON array. */
    method CustomNumberList(k: Option<string>, vs: seq<Option<real>>)
      modifies this
      ensures State() == WithCustom(old(State()), k, Some(Users.JArray(JsonNumbers(Compact(vs)))))
      ensures warnings == old(warnings) + CustomWarnings(k)
    {
      var elements: seq<Users.Json> := [];
      for i := 0 to |vs|
        invariant elements == JsonNumbers(Compact(vs[..i]))
        invariant State() == old(State()) && warnings == old(warnings)
      {
        CompactSnoc(vs, i);
        if vs[i].Some? {
          elements := elements + [Users.JNumber(vs[i].value)];
          JsonNumbersSnoc(Compact(vs[..i]), vs[i].value);
          assert Compact(vs[..i + 1]) == Compact(vs[..i]) + [vs[i].value];
        } else {
          assert Compact(vs[..i + 1]) == Compact(vs[..i]);
        }
      }
      assert vs[..|vs|] == vs;
      Custom(k, Some(Users.JArray(elements)));
    }

    /** `customValues`: store the non-null JSON values, in order, as a JSON array. */
    method CustomValues(k: Option<string>, vs: seq<Option<Users.Json>>)
      modifies this
      ensures State() == WithCustom(old(State()), k, Some(Users.JArray(Compact(vs))))
      ensures warnings == old(warnings) + CustomWarnings(k)
    {
      var elements: seq<Users.Json> := [];
      for i := 0 to |vs|
        invariant elements == Compact(vs[..i])
        invariant State() == old(State()) && warnings == old(warnings)
      {
        CompactSnoc(vs, i);
        if vs[i].Some? {
          elements := elements + [vs[i].value];
        }
      }
      assert vs[..|vs|] == vs;
      Custom(k, Some(Users.JArray(elements)));
    }

    method PrivateCustom(k: string, v: Option<Users.Json>)
      modifies this
      ensures State() == WithCustom(WithPrivate(old(State()), k), Some(k), v)
      ensures warnings == old(warnings) + CustomWarnings(Some(k))
    {
      AddPrivate(k);
      Custom(Some(k), v);
    }

    method PrivateCustomText(k: string, v: Option<string>)
      modifies this
      ensures State() == WithCustom(WithPrivate(old(State()), k), Some(k),
                                    if v.None? then None else Some(Users.JString(v.value)))
      ensures warnings == old(warnings) + CustomWarnings(Some(k))
    {
      AddPrivate(k);
      CustomText(Some(k), v);
    }

    method PrivateCustomNumeric(k: string, v: Option<real>)
      modifies this
      ensures State() == WithCustom(WithPrivate(old(State()), k), Some(k),
                                    if v.None? then None else Some(Users.JNumber(v.value)))
      ensures warnings == old(warnings) + CustomWarnings(Some(k))
    {
      AddPrivate(k);
      CustomNumeric(Some(k), v);
    }

    method PrivateCustomBool(k: string, v: Option<bool>)
      modifies this
      ensures State() == WithCustom(WithPrivate(old(State()), k), Some(k),
                                    if v.None? then None else Some(Users.JBool(v.value)))
      ensures warnings == old(warnings) + CustomWarnings(Some(k))
    {
      AddPrivate(k);
      CustomBool(Some(k), v);
    }

    method PrivateCustomStringList(k: string, vs: seq<Option<string>>)
      modifies this
      ensures State() == WithCustom(WithPrivate(old(State()), k), Some(k), Some(Users.JArray(JsonStrings(Compact(vs)))))
      ensures warnings == old(warnings) + CustomWarnings(Some(k))
    {
      AddPrivate(k);
      CustomStringList(Some(k), vs);
    }

    method PrivateCustomNumberList(k: string, vs: seq<Option<real>>)
      modifies this
      ensures State() == WithCustom(WithPrivate(old(State()), k), Some(k), Some(Users.JArray(JsonNumbers(Compact(vs)))))
      ensures warnings == old(warnings) + CustomWarnings(Some(k))
    {
      AddPrivate(k);
      CustomNumberList(Some(k), vs);
    }

    method PrivateCustomValues(k: string, vs: seq<Option<Users.Json>>)
      modifies this
      ensures State() == WithCustom(WithPrivate(old(State()), k), Some(k), Some(Users.JArray(Compact(vs))))
      ensures warnings == old(warnings) + CustomWarnings(Some(k))
    {
      AddPrivate(k);
      CustomValues(Some(k), vs);
    }

    /** `build`: an immutable snapshot; a null or empty key is only warned about. */
    method Build() returns (u: Users.User)
      modifies this
      ensures u == Snapshot(State())
      ensures u.country.Some? <==> country.Some?
      ensures u.country.Some? ==> u.country.value == country.value.alpha2
      ensures State() == old(State())
      ensures warnings == old(warnings) + if key.None? || key == Some("") then [EmptyKey] else []
    {
      if key.None? || key == Some("") {
        warnings := warnings + [EmptyKey];
      }
      u := Users.User(key, secondary, ip, email, name, avatar, firstName, lastName, anonymous,
                      if country.None? then None else Some(country.value.alpha2),
                      custom, privateAttrNames);
    }
  }
}

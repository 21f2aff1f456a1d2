/**
 * The privacy-filtering encoder (`UserAdapterWithPrivateAttributeBehavior`):
 * turns a user into the fields of its analytics wire object, withholding the
 * attributes that the configuration or the user marks private.
 */
module Privacy {
  import opened Wrappers
  import opened Users

  /** The two privacy settings the encoder reads from the client configuration. */
  datatype Config = Config(allAttributesPrivate: bool, privateAttrNames: set<string>)

  /**
   * A value written after a field name: a string, a boolean, the `custom`
   * object, or the `privateAttrs` array (its order is the unspecified
   * iteration order of a hash set, so it is kept as a set).
   */
  datatype WireValue =
    | WString(s: string)
    | WBool(b: bool)
    | WObject(members: map<string, Json>)
    | WNames(names: set<string>)

  /** One `out.name(...).value(...)` pair of the wire object. */
  datatype Field = Field(name: string, value: WireValue)

  /** The order in which the encoder writes the fields of the wire object. */
  const WireOrder: seq<string> :=
    ["key", "secondary", "ip", "email", "name", "avatar", "firstName", "lastName",
     "anonymous", "country", "custom", "privateAttrs"]

  /** The built-ins that are tested for privacy, in the order they are written. */
  const Redactable: seq<Attribute> := [Secondary, Ip, Email, Name, Avatar, FirstName, LastName, Country]

  /** The three-way private test of `checkAndAddPrivate`. */
  predicate IsPrivate(c: Config, u: User, n: string)
  {
    c.allAttributesPrivate || n in c.privateAttrNames ||
    (u.privateAttributeNames.Some? && n in u.privateAttributeNames.value)
  }

  /** The field a present, non-private built-in contributes. */
  function BuiltInField(c: Config, u: User, a: Attribute): seq<Field>
    requires a != Anonymous
  {
    match TextOf(u, a)
    case None => []
    case Some(v) => if IsPrivate(c, u, AttributeName(a)) then [] else [Field(AttributeName(a), WString(v))]
  }

  /** The name a present, private built-in adds to the withheld names. */
  function BuiltInWithheld(c: Config, u: User, a: Attribute): set<string>
    requires a != Anonymous
  {
    if TextOf(u, a).Some? && IsPrivate(c, u, AttributeName(a)) then {AttributeName(a)} else {}
  }

  function CustomOf(u: User): map<string, Json>
  {
    if u.custom.Some? then u.custom.value else map[]
  }

  /** The custom entries that are written. */
  function VisibleCustom(c: Config, u: User): map<string, Json>
  {
    map k | k in CustomOf(u) && !IsPrivate(c, u, k) :: CustomOf(u)[k]
  }

  /** The custom keys that are withheld. */
  function WithheldCustom(c: Config, u: User): set<string>
  {
    set k | k in CustomOf(u) && IsPrivate(c, u, k)
  }

  function CustomField(c: Config, u: User): seq<Field>
  {
    if VisibleCustom(c, u) == map[] then [] else [Field("custom", WObject(VisibleCustom(c, u)))]
  }

  function PrivateAttrsField(names: set<string>): seq<Field>
  {
    if names == {} then [] else [Field("privateAttrs", WNames(names))]
  }

  /** The names listed under `privateAttrs`: the configured names and every withheld name. */
  function Withheld(c: Config, u: User): set<string>
  {
    c.privateAttrNames
    + BuiltInWithheld(c, u, Secondary) + BuiltInWithheld(c, u, Ip) + BuiltInWithheld(c, u, Email)
    + BuiltInWithheld(c, u, Name) + BuiltInWithheld(c, u, Avatar) + BuiltInWithheld(c, u, FirstName)
    + BuiltInWithheld(c, u, LastName) + BuiltInWithheld(c, u, Country)
    + WithheldCustom(c, u)
  }

  /** The withheld built-in names, on their own. */
  function WithheldBuiltIns(c: Config, u: User): set<string>
  {
    BuiltInWithheld(c, u, Secondary) + BuiltInWithheld(c, u, Ip) + BuiltInWithheld(c, u, Email)
    + BuiltInWithheld(c, u, Name) + BuiltInWithheld(c, u, Avatar) + BuiltInWithheld(c, u, FirstName)
    + BuiltInWithheld(c, u, LastName) + BuiltInWithheld(c, u, Country)
  }

  function AnonymousField(u: User): seq<Field>
  {
    if u.anonymous.Some? then [Field("anonymous", WBool(u.anonymous.value))] else []
  }

  function KeyField(u: User): seq<Field>
  {
    [Field("key", WString(KeyAsString(u)))]
  }

  /**
   * The slots of the wire object in wire order: slot `i` holds at most one
   * field, named `WireOrder[i]`.
   */
  function Slots(c: Config, u: User): seq<seq<Field>>
  {
    seq(|WireOrder|, i requires 0 <= i < |WireOrder| => Slot(c, u, i))
  }

  /** Slot `i` on its own. */
  function Slot(c: Config, u: User, i: nat): seq<Field>
    requires i < |WireOrder|
  {
    if i == 0 then KeyField(u)
    else if i == 1 then BuiltInField(c, u, Secondary)
    else if i == 2 then BuiltInField(c, u, Ip)
    else if i == 3 then BuiltInField(c, u, Email)
    else if i == 4 then BuiltInField(c, u, Name)
    else if i == 5 then BuiltInField(c, u, Avatar)
    else if i == 6 then BuiltInField(c, u, FirstName)
    else if i == 7 then BuiltInField(c, u, LastName)
    else if i == 8 then AnonymousField(u)
    else if i == 9 then BuiltInField(c, u, Country)
    else if i == 10 then CustomField(c, u)
    else PrivateAttrsField(Withheld(c, u))
  }

  /** One slot per wire name, each empty or holding one field of that name. */
  ghost predicate Shaped(ss: seq<seq<Field>>)
  {
    && |ss| == |WireOrder|
    && (forall i :: 0 <= i < |ss| ==> |ss[i]| <= 1)
    && (forall i, f :: 0 <= i < |ss| && f in ss[i] ==> f.name == WireOrder[i])
  }

  /** The fields of the first `k` slots. */
  function Prefix(ss: seq<seq<Field>>, k: nat): seq<Field>
    requires k <= |ss|
  {
    if k == 0 then [] else Prefix(ss, k - 1) + ss[k - 1]
  }

  /** The wire object of `u` under configuration `c`, field by field. */
  function Encoded(c: Config, u: User): seq<Field>
  {
    Prefix(Slots(c, u), |WireOrder|)
  }

  /** The value of the first field called `n`. */
  function Lookup(out: seq<Field>, n: string): Option<WireValue>
  {
    if out == [] then None
    else if out[0].name == n then Some(out[0].value)
    else Lookup(out[1..], n)
  }

  // ---------------------------------------------------------------------------
  // The encoder as the source runs it: a name set updated as attributes are
  // tested, and fields appended to the output one after another.

  /** `checkAndAddPrivate`: test `key` and record it as withheld when private. */
  method CheckAndAddPrivate(c: Config, key: string, u: User, names: set<string>)
    returns (result: bool, names': set<string>)
    ensures result <==> IsPrivate(c, u, key)
    ensures names' == if result then names + {key} else names
  {
    result := c.allAttributesPrivate || key in c.privateAttrNames ||
              (u.privateAttributeNames.Some? && key in u.privateAttributeNames.value);
    names' := names;
    if result {
      names' := names' + {key};
    }
  }

  /** One `if (user.getX() != null) { if (!checkAndAddPrivate(...)) out.name(...).value(...) }` block. */
  method WriteBuiltIn(c: Config, u: User, a: Attribute, out: seq<Field>, names: set<string>)
    returns (out': seq<Field>, names': set<string>)
    requires a != Anonymous
    ensures out' == out + BuiltInField(c, u, a)
    ensures names' == names + BuiltInWithheld(c, u, a)
  {
    out', names' := out, names;
    var v := TextOf(u, a);
    if v.Some? {
      var isPrivate;
      isPrivate, names' := CheckAndAddPrivate(c, AttributeName(a), u, names');
      if !isPrivate {
        out' := out' + [Field(AttributeName(a), WString(v.value))];
      }
    }
  }

  /** `writeCustomAttrs`: write the non-private custom entries, withhold the rest. */
  method WriteCustomAttrs(c: Config, u: User, out: seq<Field>, names: set<string>)
    returns (out': seq<Field>, names': set<string>)
    ensures out' == out + CustomField(c, u)
    ensures names' == names + WithheldCustom(c, u)
  {
    out', names' := out, names;
    var beganObject := false;
    if u.custom.None? {
      return;
    }
    var custom := u.custom.value;
    var members: map<string, Json> := map[];
    var pending := custom.Keys;
    while pending != {}
      invariant pending <= custom.Keys
      invariant members == map k | k in custom && k !in pending && !IsPrivate(c, u, k) :: custom[k]
      invariant names' == names + set k | k in custom && k !in pending && IsPrivate(c, u, k)
      invariant beganObject <==> members != map[]
      decreases pending
    {
      var k :| k in pending;
      var isPrivate;
      isPrivate, names' := CheckAndAddPrivate(c, k, u, names');
      if !isPrivate {
        beganObject := true;
        members := members[k := custom[k]];
        assert k in members;
      }
      pending := pending - {k};
    }
    assert members == VisibleCustom(c, u);
    if beganObject {
      out' := out' + [Field("custom", WObject(members))];
    }
  }

  /** `writePrivateAttrNames`: list the withheld names, unless there are none. */
  method WritePrivateAttrNames(out: seq<Field>, names: set<string>) returns (out': seq<Field>)
    ensures out' == out + PrivateAttrsField(names)
  {
    out' := out;
    if names == {} {
      return;
    }
    out' := out' + [Field("privateAttrs", WNames(names))];
  }

  /** `write` for a non-null user. */
  method Write(c: Config, u: User) returns (out: seq<Field>)
    ensures out == Encoded(c, u)
  {
    var names := c.privateAttrNames;
    out := [Field("key", WString(KeyAsString(u)))];
    assert out == KeyField(u);
    out, names := WriteBuiltIn(c, u, Secondary, out, names);
    out, names := WriteBuiltIn(c, u, Ip, out, names);
    out, names := WriteBuiltIn(c, u, Email, out, names);
    out, names := WriteBuiltIn(c, u, Name, out, names);
    out, names := WriteBuiltIn(c, u, Avatar, out, names);
    out, names := WriteBuiltIn(c, u, FirstName, out, names);
    out, names := WriteBuiltIn(c, u, LastName, out, names);
    if u.anonymous.Some? {
      out := out + [Field("anonymous", WBool(u.anonymous.value))];
    }
    out, names := WriteBuiltIn(c, u, Country, out, names);
    out, names := WriteCustomAttrs(c, u, out, names);
    assert names == Withheld(c, u);
    out := WritePrivateAttrNames(out, names);
    EncodedInFull(c, u);
  }

  /** Twelve slots, flattened. */
  lemma PrefixInFull(ss: seq<seq<Field>>)
    requires |ss| == 12
    ensures Prefix(ss, 12) ==
      ss[0] + ss[1] + ss[2] + ss[3] + ss[4] + ss[5] + ss[6] + ss[7] + ss[8] + ss[9] + ss[10] + ss[11]
  {
    assert Prefix(ss, 1) == ss[0];
    assert Prefix(ss, 2) == Prefix(ss, 1) + ss[1];
    assert Prefix(ss, 3) == Prefix(ss, 2) + ss[2];
    assert Prefix(ss, 4) == Prefix(ss, 3) + ss[3];
    assert Prefix(ss, 5) == Prefix(ss, 4) + ss[4];
    assert Prefix(ss, 6) == Prefix(ss, 5) + ss[5];
    assert Prefix(ss, 7) == Prefix(ss, 6) + ss[6];
    assert Prefix(ss, 8) == Prefix(ss, 7) + ss[7];
    assert Prefix(ss, 9) == Prefix(ss, 8) + ss[8];
    assert Prefix(ss, 10) == Prefix(ss, 9) + ss[9];
    assert Prefix(ss, 11) == Prefix(ss, 10) + ss[10];
  }

  /** The wire object written out slot by slot, in the order `write` appends them. */
  lemma EncodedInFull(c: Config, u: User)
    ensures Encoded(c, u) ==
      KeyField(u) + BuiltInField(c, u, Secondary) + BuiltInField(c, u, Ip) + BuiltInField(c, u, Email)
      + BuiltInField(c, u, Name) + BuiltInField(c, u, Avatar) + BuiltInField(c, u, FirstName)
      + BuiltInField(c, u, LastName) + AnonymousField(u) + BuiltInField(c, u, Country)
      + CustomField(c, u) + PrivateAttrsField(Withheld(c, u))
  {
    var ss := Slots(c, u);
    PrefixInFull(ss);
    assert ss[0] == KeyField(u);
    assert ss[1] == BuiltInField(c, u, Secondary);
    assert ss[2] == BuiltInField(c, u, Ip);
    assert ss[3] == BuiltInField(c, u, Email);
    assert ss[4] == BuiltInField(c, u, Name);
    assert ss[5] == BuiltInField(c, u, Avatar);
    assert ss[6] == BuiltInField(c, u, FirstName);
    assert ss[7] == BuiltInField(c, u, LastName);
    assert ss[8] == AnonymousField(u);
    assert ss[9] == BuiltInField(c, u, Country);
    assert ss[10] == CustomField(c, u);
    assert ss[11] == PrivateAttrsField(Withheld(c, u));
  }

  // ---------------------------------------------------------------------------
  // Properties of the wire object.

  lemma WireOrderDistinct(i: nat, j: nat)
    requires i < j < |WireOrder|
    ensures WireOrder[i] != WireOrder[j]
  {
  }

  /** Each slot holds at most one field, and that field is called by the slot's wire name. */
  lemma SlotsShaped(c: Config, u: User)
    ensures Shaped(Slots(c, u))
  {
    var ss := Slots(c, u);
    forall i | 0 <= i < |ss| ensures |ss[i]| <= 1 && forall f: Field :: f in ss[i] ==> f.name == WireOrder[i] {
      if 1 <= i < 8 || i == 9 {
        var a := if i == 9 then Country else Redactable[i - 1];
        assert ss[i] == BuiltInField(c, u, a) && WireOrder[i] == AttributeName(a);
      }
    }
  }

  /** Every field of the first `k` slots comes from one of them and carries its name. */
  lemma {:induction false} PrefixFields(ss: seq<seq<Field>>, k: nat, f: Field)
    requires Shaped(ss) && k <= |ss| && f in Prefix(ss, k)
    ensures exists i :: 0 <= i < k && f.name == WireOrder[i] && f in ss[i]
  {
    if f !in ss[k - 1] {
      PrefixFields(ss, k - 1, f);
    }
  }

  lemma {:induction false} LookupConcat(a: seq<Field>, b: seq<Field>, n: string)
    ensures Lookup(a + b, n) == if Lookup(a, n).Some? then Lookup(a, n) else Lookup(b, n)
  {
    if a != [] {
      assert (a + b)[1..] == a[1..] + b;
      LookupConcat(a[1..], b, n);
    } else {
      assert a + b == b;
    }
  }

  /** A name no field carries is not found. */
  lemma {:induction false} LookupAbsent(out: seq<Field>, n: string)
    requires forall f :: f in out ==> f.name != n
    ensures Lookup(out, n) == None
  {
    if out != [] {
      assert out[0] in out;
      LookupAbsent(out[1..], n);
    }
  }

  /** Appending fields with other names does not change what a name finds. */
  lemma LookupKeep(before: seq<Field>, piece: seq<Field>, n: string)
    requires forall f :: f in piece ==> f.name != n
    ensures Lookup(before + piece, n) == Lookup(before, n)
  {
    LookupConcat(before, piece, n);
    LookupAbsent(piece, n);
  }

  /** A name not used before is found in what is appended, if anywhere. */
  lemma LookupNew(before: seq<Field>, piece: seq<Field>, n: string)
    requires forall f :: f in before ==> f.name != n
    requires |piece| <= 1 && forall f :: f in piece ==> f.name == n
    ensures Lookup(before + piece, n) == if piece == [] then None else Some(piece[0].value)
  {
    LookupConcat(before, piece, n);
    LookupAbsent(before, n);
    if piece != [] {
      assert piece[0] in piece;
    }
  }

  /** A wire name is found in its own slot, or nowhere. */
  lemma {:induction false} LookupPrefix(ss: seq<seq<Field>>, k: nat, i: nat)
    requires Shaped(ss) && i < k <= |ss|
    ensures Lookup(Prefix(ss, k), WireOrder[i]) == if ss[i] == [] then None else Some(ss[i][0].value)
  {
    var before, piece := Prefix(ss, k - 1), ss[k - 1];
    assert Prefix(ss, k) == before + piece;
    if i < k - 1 {
      LookupPrefix(ss, k - 1, i);
      WireOrderDistinct(i, k - 1);
      LookupKeep(before, piece, WireOrder[i]);
    } else {
      NotInPrefix(ss, k - 1, i);
      LookupNew(before, piece, WireOrder[i]);
    }
  }

  /** The names of a list of fields, in order. */
  function Names(out: seq<Field>): seq<string>
  {
    seq(|out|, i requires 0 <= i < |out| => out[i].name)
  }

  /** `xs` is `ys` with some elements left out. */
  predicate IsSubsequence(xs: seq<string>, ys: seq<string>)
  {
    if xs == [] then true
    else if ys == [] then false
    else if xs[|xs| - 1] == ys[|ys| - 1] then IsSubsequence(xs[..|xs| - 1], ys[..|ys| - 1])
    else IsSubsequence(xs, ys[..|ys| - 1])
  }

  lemma NamesSnoc(out: seq<Field>, f: Field)
    ensures Names(out + [f]) == Names(out) + [f.name]
  {
  }

  /** Appending an element to `ys` that differs from the last of `xs` keeps `xs` a subsequence. */
  lemma SubsequenceSkip(xs: seq<string>, ys: seq<string>, y: string)
    requires IsSubsequence(xs, ys)
    requires xs != [] ==> xs[|xs| - 1] != y
    ensures IsSubsequence(xs, ys + [y])
  {
    assert (ys + [y])[..|ys|] == ys;
  }

  /** Appending the same element to both keeps the subsequence relation. */
  lemma SubsequenceTake(xs: seq<string>, ys: seq<string>, y: string)
    requires IsSubsequence(xs, ys)
    ensures IsSubsequence(xs + [y], ys + [y])
  {
    assert (xs + [y])[..|xs|] == xs;
    assert (ys + [y])[..|ys|] == ys;
  }

  /** The first `k` slots carry none of the later wire names. */
  lemma NotInPrefix(ss: seq<seq<Field>>, k: nat, j: nat)
    requires Shaped(ss) && k <= j < |ss|
    ensures forall f :: f in Prefix(ss, k) ==> f.name != WireOrder[j]
  {
    forall f | f in Prefix(ss, k) ensures f.name != WireOrder[j] {
      PrefixFields(ss, k, f);
      var i :| 0 <= i < k && f.name == WireOrder[i] && f in ss[i];
      WireOrderDistinct(i, j);
    }
  }

  /** Appending a slot named `y`, a name not used before, keeps the names in order. */
  lemma AppendSlotInOrder(before: seq<Field>, piece: seq<Field>, ys: seq<string>, y: string)
    requires IsSubsequence(Names(before), ys)
    requires forall f :: f in before ==> f.name != y
    requires |piece| <= 1 && forall f :: f in piece ==> f.name == y
    ensures IsSubsequence(Names(before + piece), ys + [y])
  {
    if piece == [] {
      assert before + piece == before;
      if before != [] {
        assert before[|before| - 1] in before;
      }
      SubsequenceSkip(Names(before), ys, y);
    } else {
      assert piece[0] in piece;
      assert piece == [piece[0]];
      NamesSnoc(before, piece[0]);
      SubsequenceTake(Names(before), ys, y);
    }
  }

  lemma {:induction false} PrefixInOrder(ss: seq<seq<Field>>, k: nat)
    requires Shaped(ss) && k <= |ss|
    ensures IsSubsequence(Names(Prefix(ss, k)), WireOrder[..k])
  {
    if k > 0 {
      PrefixInOrder(ss, k - 1);
      NotInPrefix(ss, k - 1, k - 1);
      assert WireOrder[..k] == WireOrder[..k - 1] + [WireOrder[k - 1]];
      AppendSlotInOrder(Prefix(ss, k - 1), ss[k - 1], WireOrder[..k - 1], WireOrder[k - 1]);
    }
  }

  /** The fields of the wire object come in the fixed order, so no name occurs twice. */
  lemma FieldOrder(c: Config, u: User)
    ensures IsSubsequence(Names(Encoded(c, u)), WireOrder)
  {
    SlotsShaped(c, u);
    PrefixInOrder(Slots(c, u), |WireOrder|);
    assert WireOrder[..|WireOrder|] == WireOrder;
  }

  /**
   * The key is never redacted: the output begins with it, holding the key
   * string, or the empty string for a null key.
   */
  lemma KeyNeverRedacted(c: Config, u: User)
    ensures |Encoded(c, u)| > 0
    ensures Encoded(c, u)[0] == Field("key", WString(if u.key.Some? then u.key.value else ""))
  {
    FirstSlotFirst(Slots(c, u), |WireOrder|);
    assert Slots(c, u)[0] == [Field("key", WString(KeyAsString(u)))];
  }

  /** The fields of the first slot open every prefix that includes it. */
  lemma {:induction false} FirstSlotFirst(ss: seq<seq<Field>>, k: nat)
    requires 0 < k <= |ss|
    ensures ss[0] <= Prefix(ss, k)
  {
    if k == 1 {
      assert Prefix(ss, 1) == [] + ss[0] == ss[0];
    } else {
      FirstSlotFirst(ss, k - 1);
      assert Prefix(ss, k) == Prefix(ss, k - 1) + ss[k - 1];
    }
  }

  /**
   * The anonymous flag is written verbatim when present, whatever the
   * privacy settings, and not at all when absent.
   */
  lemma AnonymousNeverRedacted(c: Config, u: User)
    ensures Lookup(Encoded(c, u), "anonymous") ==
      if u.anonymous.Some? then Some(WBool(u.anonymous.value)) else None
  {
    SlotsShaped(c, u);
    LookupPrefix(Slots(c, u), |WireOrder|, 8);
    assert Slots(c, u)[8] == AnonymousField(u);
  }

  /** The slot that holds a redactable built-in. */
  function SlotOf(a: Attribute): nat
  {
    match a
    case Key => 0
    case Secondary => 1
    case Ip => 2
    case Email => 3
    case Name => 4
    case Avatar => 5
    case FirstName => 6
    case LastName => 7
    case Anonymous => 8
    case Country => 9
  }

  /**
   * Gating of the built-ins: a present built-in is written, with its value,
   * exactly when it is not private; an absent one is never written.
   */
  lemma BuiltInGating(c: Config, u: User, a: Attribute)
    requires a in Redactable
    ensures Lookup(Encoded(c, u), AttributeName(a)) ==
      if TextOf(u, a).Some? && !IsPrivate(c, u, AttributeName(a))
      then Some(WString(TextOf(u, a).value)) else None
  {
    assert WireOrder[SlotOf(a)] == AttributeName(a);
    assert Slots(c, u)[SlotOf(a)] == BuiltInField(c, u, a);
    SlotsShaped(c, u);
    LookupPrefix(Slots(c, u), |WireOrder|, SlotOf(a));
  }

  /**
   * The `custom` object is written exactly when some custom entry is not
   * private, and holds exactly those entries with their values; a user
   * without a custom map gets none.
   */
  lemma CustomObjectContents(c: Config, u: User)
    ensures Lookup(Encoded(c, u), "custom") ==
      if VisibleCustom(c, u) == map[] then None else Some(WObject(VisibleCustom(c, u)))
    ensures forall k :: k in VisibleCustom(c, u) <==> u.custom.Some? && k in u.custom.value && !IsPrivate(c, u, k)
    ensures forall k :: k in VisibleCustom(c, u) ==> VisibleCustom(c, u)[k] == u.custom.value[k]
    ensures u.custom.None? ==> Lookup(Encoded(c, u), "custom") == None
  {
    SlotsShaped(c, u);
    LookupPrefix(Slots(c, u), |WireOrder|, 10);
    assert Slots(c, u)[10] == CustomField(c, u);
  }

  /** Who is listed under `privateAttrs`: configured names, and present attributes that test private. */
  lemma WithheldMembers(c: Config, u: User, n: string)
    ensures n in Withheld(c, u) <==>
      n in c.privateAttrNames ||
      (IsPrivate(c, u, n) &&
       ((exists a :: a in Redactable && AttributeName(a) == n && TextOf(u, a).Some?) ||
        (u.custom.Some? && n in u.custom.value)))
  {
    WithheldSplit(c, u);
    if n in WithheldBuiltIns(c, u) {
      var a := WithheldBuiltInOf(c, u, n);
      assert AttributeName(a) == n && TextOf(u, a).Some? && IsPrivate(c, u, n);
    }
    if IsPrivate(c, u, n) {
      if a :| a in Redactable && AttributeName(a) == n && TextOf(u, a).Some? {
        assert n in BuiltInWithheld(c, u, a);
        BuiltInWithheldListed(c, u, a);
      }
    }
  }

  lemma WithheldSplit(c: Config, u: User)
    ensures Withheld(c, u) == c.privateAttrNames + WithheldBuiltIns(c, u) + WithheldCustom(c, u)
  {
  }

  /** The attribute a withheld built-in name comes from. */
  lemma WithheldBuiltInOf(c: Config, u: User, n: string) returns (a: Attribute)
    requires n in WithheldBuiltIns(c, u)
    ensures a in Redactable && n in BuiltInWithheld(c, u, a)
  {
    if n in BuiltInWithheld(c, u, Secondary) { a := Secondary; }
    else if n in BuiltInWithheld(c, u, Ip) { a := Ip; }
    else if n in BuiltInWithheld(c, u, Email) { a := Email; }
    else if n in BuiltInWithheld(c, u, Name) { a := Name; }
    else if n in BuiltInWithheld(c, u, Avatar) { a := Avatar; }
    else if n in BuiltInWithheld(c, u, FirstName) { a := FirstName; }
    else if n in BuiltInWithheld(c, u, LastName) { a := LastName; }
    else { a := Country; }
  }

  /** Each redactable built-in's contribution is part of the withheld built-in names. */
  lemma BuiltInWithheldListed(c: Config, u: User, a: Attribute)
    requires a in Redactable
    ensures BuiltInWithheld(c, u, a) <= WithheldBuiltIns(c, u)
  {
  }

  /**
   * `privateAttrs` is written exactly when some name is withheld, and lists
   * the withheld names (names only, never values).
   */
  lemma PrivateAttrsContents(c: Config, u: User)
    ensures Lookup(Encoded(c, u), "privateAttrs") ==
      if Withheld(c, u) == {} then None else Some(WNames(Withheld(c, u)))
  {
    SlotsShaped(c, u);
    LookupPrefix(Slots(c, u), |WireOrder|, 11);
    assert Slots(c, u)[11] == PrivateAttrsField(Withheld(c, u));
  }

  /**
   * Every configured private name is listed, whether or not the user has
   * that attribute, because the withheld set starts from the configured names.
   */
  lemma ConfiguredNamesAlwaysListed(c: Config, u: User)
    requires c.privateAttrNames != {}
    ensures exists names ::
      && Lookup(Encoded(c, u), "privateAttrs") == Some(WNames(names))
      && c.privateAttrNames <= names
  {
    PrivateAttrsContents(c, u);
    assert Lookup(Encoded(c, u), "privateAttrs") == Some(WNames(Withheld(c, u)));
  }

  /**
   * With every attribute private, only the key, the anonymous flag and
   * `privateAttrs` are written, and every present attribute is listed.
   */
  lemma AllPrivateWithholdsEverything(c: Config, u: User)
    requires c.allAttributesPrivate
    ensures forall f :: f in Encoded(c, u) ==> f.name == "key" || f.name == "anonymous" || f.name == "privateAttrs"
    ensures forall a :: a in Redactable && TextOf(u, a).Some? ==> AttributeName(a) in Withheld(c, u)
    ensures u.custom.Some? ==> u.custom.value.Keys <= Withheld(c, u)
  {
    assert VisibleCustom(c, u) == map[];
    SlotsShaped(c, u);
    forall f | f in Encoded(c, u)
      ensures f.name == "key" || f.name == "anonymous" || f.name == "privateAttrs"
    {
      PrefixFields(Slots(c, u), |WireOrder|, f);
    }
    forall a | a in Redactable && TextOf(u, a).Some? ensures AttributeName(a) in Withheld(c, u) {
      WithheldMembers(c, u, AttributeName(a));
    }
  }

  /**
   * A custom entry named like a built-in resolves only to the built-in, yet
   * is still written under `custom` when it is not private.
   */
  lemma ShadowedCustomStillWritten(c: Config, u: User, a: Attribute)
    requires u.custom.Some? && AttributeName(a) in u.custom.value
    requires !IsPrivate(c, u, AttributeName(a))
    ensures Resolve(u, AttributeName(a)) == AttributeValue(u, a)
    ensures exists m ::
      && Lookup(Encoded(c, u), "custom") == Some(WObject(m))
      && AttributeName(a) in m && m[AttributeName(a)] == u.custom.value[AttributeName(a)]
  {
    BuiltInShadowsCustom(u, a);
    CustomObjectContents(c, u);
    assert AttributeName(a) in VisibleCustom(c, u);
  }
}

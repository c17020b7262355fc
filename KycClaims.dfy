/**
 * The KYC ("know your customer") claims request parameter: nine personal-data
 * attributes, each requested in plain and in one-way-hashed form, gathered by a
 * fluent builder into an immutable value and assembled into the object tree
 * `{premiuminfo: {<slot key>: {value: <v>}, ...}}` that the authorization
 * request carries.
 */
module KycClaims {
  import opened Wrappers

  /** The nine attributes, in the order toJson visits them. */
  datatype Attribute =
    Name | GivenName | FamilyName | Address | HousenoOrHousename | PostalCode | Town | Country | Birthdate

  /** One of the 18 string slots: an attribute in plain or hashed form. */
  datatype Slot = Slot(attr: Attribute, hashed: bool)

  /** The attribute at position `i` of the source order. */
  function AttributeAt(i: nat): (a: Attribute)
    requires i < 9
    ensures AttributeIndex(a) == i
  {
    if i == 0 then Name
    else if i == 1 then GivenName
    else if i == 2 then FamilyName
    else if i == 3 then Address
    else if i == 4 then HousenoOrHousename
    else if i == 5 then PostalCode
    else if i == 6 then Town
    else if i == 7 then Country
    else Birthdate
  }

  /** The position of an attribute in the source order. */
  function AttributeIndex(a: Attribute): (i: nat)
    ensures i < 9
  {
    match a
    case Name => 0
    case GivenName => 1
    case FamilyName => 2
    case Address => 3
    case HousenoOrHousename => 4
    case PostalCode => 5
    case Town => 6
    case Country => 7
    case Birthdate => 8
  }

  /** The position of a slot in toJson's order: the nine plain slots, then the
      nine hashed ones. */
  function SlotIndex(s: Slot): (i: nat)
    ensures i < 18
  {
    AttributeIndex(s.attr) + if s.hashed then 9 else 0
  }

  /** The slot at position `i` of toJson's order: the plain slots of the nine
      attributes, then the hashed ones. */
  function SlotAt(i: nat): (s: Slot)
    requires i < 18
    ensures SlotIndex(s) == i
  {
    Slot(AttributeAt(i % 9), i >= 9)
  }

  /** StringUtils.isNullOrEmpty. */
  predicate IsNullOrEmpty(s: Option<string>) {
    s.None? || |s.value| == 0
  }

  // ---------------------------------------------------------------------
  // The object tree that toJson builds (Jackson's ObjectNode contents)
  // ---------------------------------------------------------------------

  /** Object keys: one per slot (the KYCClaimsConstants names),
      LinkRels.PREMIUMINFO and LinkRels.VALUE. */
  datatype Key = SlotKey(slot: Slot) | PremiumInfoKey | ValueKey

  /** A JSON value as the tree holds it: a string leaf or an object whose
      members keep their insertion order. */
  datatype Json = JString(text: string) | JObject(members: seq<Member>)

  datatype Member = Member(key: Key, value: Json)

  /** Some member of the object has key `k`. */
  predicate HasKey(members: seq<Member>, k: Key) {
    exists i :: 0 <= i < |members| && members[i].key == k
  }

  /**
   * The members after ObjectNode.put/putPOJO of `k`: a new key goes at the end;
   * an existing key keeps its place and takes the new value.
   */
  function PutMember(members: seq<Member>, k: Key, v: Json): (r: seq<Member>)
    ensures !HasKey(members, k) ==> r == members + [Member(k, v)]
    ensures HasKey(members, k) ==>
      |r| == |members| && Member(k, v) in r
      && forall i :: 0 <= i < |r| ==> r[i].key == members[i].key && (members[i].key != k ==> r[i] == members[i])
  {
    if members == [] then
      [Member(k, v)]
    else if members[0].key == k then
      [Member(k, v)] + members[1..]
    else
      var rest := PutMember(members[1..], k, v);
      assert HasKey(members, k) ==> HasKey(members[1..], k) by {
        if HasKey(members, k) {
          var i :| 0 <= i < |members| && members[i].key == k;
          assert members[1..][i - 1].key == k;
        }
      }
      assert !HasKey(members, k) ==> !HasKey(members[1..], k) by {
        if HasKey(members[1..], k) {
          var i :| 0 <= i < |members[1..]| && members[1..][i].key == k;
          assert members[i + 1].key == k;
        }
      }
      [members[0]] + rest
  }

  /** What paramToJson does to the members of the node for one slot. */
  function ParamStep(members: seq<Member>, param: Option<string>, slotName: Slot): (r: seq<Member>)
    // A null or empty parameter leaves the node alone.
    ensures IsNullOrEmpty(param) ==> r == members
    // A present parameter under a new key is appended as `{value: param}`.
    ensures !IsNullOrEmpty(param) && !HasKey(members, SlotKey(slotName)) ==>
      r == members + [Member(SlotKey(slotName), ValueObject(param.value))]
    // Under a key already there, it replaces that member and keeps the size.
    ensures !IsNullOrEmpty(param) && HasKey(members, SlotKey(slotName)) ==>
      |r| == |members| && Member(SlotKey(slotName), ValueObject(param.value)) in r
  {
    if IsNullOrEmpty(param) then members else PutMember(members, SlotKey(slotName), ValueObject(param.value))
  }

  /** The object `{value: v}` that paramToJson stores for a present slot. */
  function ValueObject(v: string): Json {
    JObject([Member(ValueKey, JString(v))])
  }

  /** The whole document: the single key `premiuminfo` over the given members. */
  function PremiumInfo(members: seq<Member>): Json {
    JObject([Member(PremiumInfoKey, JObject(members))])
  }

  /** A Jackson ObjectNode, reduced to its ordered members. */
  class ObjectNode {
    var members: seq<Member>

    /** ObjectMapper.createObjectNode: an empty object. */
    constructor ()
      ensures members == []
    {
      members := [];
    }

    /** The tree this node stands for. */
    function Tree(): Json
      reads this
    {
      JObject(members)
    }

    /** putPOJO(k, v). */
    method PutPojo(k: Key, v: Json)
      modifies this
      ensures members == PutMember(old(members), k, v)
    {
      members := PutMember(members, k, v);
    }

    /** put(k, text): a string member. */
    method PutString(k: Key, text: string)
      modifies this
      ensures members == PutMember(old(members), k, JString(text))
    {
      members := PutMember(members, k, JString(text));
    }
  }

  // ---------------------------------------------------------------------
  // The immutable parameter
  // ---------------------------------------------------------------------

  /** KYCClaimsParameter: 18 final, possibly null, strings; the getters are the
      field selectors, and `Get` reads a slot by name. */
  datatype KycClaimsParameter = KycClaimsParameter(
    name: Option<string>,
    givenName: Option<string>,
    familyName: Option<string>,
    address: Option<string>,
    housenoOrHousename: Option<string>,
    postalCode: Option<string>,
    town: Option<string>,
    country: Option<string>,
    birthdate: Option<string>,
    nameHashed: Option<string>,
    givenNameHashed: Option<string>,
    familyNameHashed: Option<string>,
    addressHashed: Option<string>,
    housenoOrHousenameHashed: Option<string>,
    postalCodeHashed: Option<string>,
    townHashed: Option<string>,
    countryHashed: Option<string>,
    birthdateHashed: Option<string>)
  {
    /** The getter for slot `s`. */
    function Get(s: Slot): Option<string> {
      match s
      case Slot(Name, false) => name
      case Slot(GivenName, false) => givenName
      case Slot(FamilyName, false) => familyName
      case Slot(Address, false) => address
      case Slot(HousenoOrHousename, false) => housenoOrHousename
      case Slot(PostalCode, false) => postalCode
      case Slot(Town, false) => town
      case Slot(Country, false) => country
      case Slot(Birthdate, false) => birthdate
      case Slot(Name, true) => nameHashed
      case Slot(GivenName, true) => givenNameHashed
      case Slot(FamilyName, true) => familyNameHashed
      case Slot(Address, true) => addressHashed
      case Slot(HousenoOrHousename, true) => housenoOrHousenameHashed
      case Slot(PostalCode, true) => postalCodeHashed
      case Slot(Town, true) => townHashed
      case Slot(Country, true) => countryHashed
      case Slot(Birthdate, true) => birthdateHashed
    }

    /** This value with slot `s` replaced by `v`: what assigning one builder
        field does to the value the builder would build. */
    function With(s: Slot, v: Option<string>): (r: KycClaimsParameter)
      ensures r.Get(s) == v
      ensures forall t :: t != s ==> r.Get(t) == Get(t)
    {
      match s
      case Slot(Name, false) => this.(name := v)
      case Slot(GivenName, false) => this.(givenName := v)
      case Slot(FamilyName, false) => this.(familyName := v)
      case Slot(Address, false) => this.(address := v)
      case Slot(HousenoOrHousename, false) => this.(housenoOrHousename := v)
      case Slot(PostalCode, false) => this.(postalCode := v)
      case Slot(Town, false) => this.(town := v)
      case Slot(Country, false) => this.(country := v)
      case Slot(Birthdate, false) => this.(birthdate := v)
      case Slot(Name, true) => this.(nameHashed := v)
      case Slot(GivenName, true) => this.(givenNameHashed := v)
      case Slot(FamilyName, true) => this.(familyNameHashed := v)
      case Slot(Address, true) => this.(addressHashed := v)
      case Slot(HousenoOrHousename, true) => this.(housenoOrHousenameHashed := v)
      case Slot(PostalCode, true) => this.(postalCodeHashed := v)
      case Slot(Town, true) => this.(townHashed := v)
      case Slot(Country, true) => this.(countryHashed := v)
      case Slot(Birthdate, true) => this.(birthdateHashed := v)
    }

    /** The inner object of toJson: one member per present slot, in slot order. */
    function ClaimsMembers(): seq<Member> {
      EmitUpTo(this, 18)
    }

    /**
     * paramToJson: for a non-null, non-empty `param`, put `{value: param}`
     * under the key of slot `slotName`; the same node is returned.
     */
    static method ParamToJson(node: ObjectNode, param: Option<string>, slotName: Slot) returns (r: ObjectNode)
      modifies node
      ensures r == node
      ensures node.members == ParamStep(old(node.members), param, slotName)
    {
      if !IsNullOrEmpty(param) {
        var valueNode := new ObjectNode();
        valueNode.PutString(ValueKey, param.value);
        node.PutPojo(SlotKey(slotName), valueNode.Tree());
      }
      r := node;
    }

    /**
     * toJson: the document `{premiuminfo: {...}}`, or None (null) when the
     * serialiser fails; whether it fails is the `serialisationFails` input.
     */
    method ToJson(serialisationFails: bool) returns (r: Option<Json>)
      ensures serialisationFails ==> r.None?
      ensures !serialisationFails ==> r == Some(PremiumInfo(ClaimsMembers()))
    {
      var node := new ObjectNode();
      assert node.members == EmitUpTo(this, 0);
      ghost var before0 := node.members;
      var _ := ParamToJson(node, name, Slot(Name, false));
      EmitStep(this, 0, before0, name, Slot(Name, false));
      ghost var before1 := node.members;
      var _ := ParamToJson(node, givenName, Slot(GivenName, false));
      EmitStep(this, 1, before1, givenName, Slot(GivenName, false));
      ghost var before2 := node.members;
      var _ := ParamToJson(node, familyName, Slot(FamilyName, false));
      EmitStep(this, 2, before2, familyName, Slot(FamilyName, false));
      ghost var before3 := node.members;
      var _ := ParamToJson(node, address, Slot(Address, false));
      EmitStep(this, 3, before3, address, Slot(Address, false));
      ghost var before4 := node.members;
      var _ := ParamToJson(node, housenoOrHousename, Slot(HousenoOrHousename, false));
      EmitStep(this, 4, before4, housenoOrHousename, Slot(HousenoOrHousename, false));
      ghost var before5 := node.members;
      var _ := ParamToJson(node, postalCode, Slot(PostalCode, false));
      EmitStep(this, 5, before5, postalCode, Slot(PostalCode, false));
      ghost var before6 := node.members;
      var _ := ParamToJson(node, town, Slot(Town, false));
      EmitStep(this, 6, before6, town, Slot(Town, false));
      ghost var before7 := node.members;
      var _ := ParamToJson(node, country, Slot(Country, false));
      EmitStep(this, 7, before7, country, Slot(Country, false));
      ghost var before8 := node.members;
      var _ := ParamToJson(node, birthdate, Slot(Birthdate, false));
      EmitStep(this, 8, before8, birthdate, Slot(Birthdate, false));

      ghost var before9 := node.members;
      var _ := ParamToJson(node, nameHashed, Slot(Name, true));
      EmitStep(this, 9, before9, nameHashed, Slot(Name, true));
      ghost var before10 := node.members;
      var _ := ParamToJson(node, givenNameHashed, Slot(GivenName, true));
      EmitStep(this, 10, before10, givenNameHashed, Slot(GivenName, true));
      ghost var before11 := node.members;
      var _ := ParamToJson(node, familyNameHashed, Slot(FamilyName, true));
      EmitStep(this, 11, before11, familyNameHashed, Slot(FamilyName, true));
      ghost var before12 := node.members;
      var _ := ParamToJson(node, addressHashed, Slot(Address, true));
      EmitStep(this, 12, before12, addressHashed, Slot(Address, true));
      ghost var before13 := node.members;
      var _ := ParamToJson(node, housenoOrHousenameHashed, Slot(HousenoOrHousename, true));
      EmitStep(this, 13, before13, housenoOrHousenameHashed, Slot(HousenoOrHousename, true));
      ghost var before14 := node.members;
      var _ := ParamToJson(node, postalCodeHashed, Slot(PostalCode, true));
      EmitStep(this, 14, before14, postalCodeHashed, Slot(PostalCode, true));
      ghost var before15 := node.members;
      var _ := ParamToJson(node, townHashed, Slot(Town, true));
      EmitStep(this, 15, before15, townHashed, Slot(Town, true));
      ghost var before16 := node.members;
      var _ := ParamToJson(node, countryHashed, Slot(Country, true));
      EmitStep(this, 16, before16, countryHashed, Slot(Country, true));
      ghost var before17 := node.members;
      var _ := ParamToJson(node, birthdateHashed, Slot(Birthdate, true));
      EmitStep(this, 17, before17, birthdateHashed, Slot(Birthdate, true));

      var premiumInfo := new ObjectNode();
      premiumInfo.PutPojo(PremiumInfoKey, node.Tree());
      if serialisationFails {
        r := None;
      } else {
        r := Some(premiumInfo.Tree());
      }
    }
  }

  /** The parameter with every slot null: what a fresh builder builds. */
  function Unset(): (p: KycClaimsParameter)
    ensures forall s :: p.Get(s) == None
  {
    KycClaimsParameter(None, None, None, None, None, None, None, None, None,
                       None, None, None, None, None, None, None, None, None)
  }

  // ---------------------------------------------------------------------
  // Specification of the inner object
  // ---------------------------------------------------------------------

  /** The member paramToJson adds for slot `s` of `p`, if any. */
  function EntryFor(p: KycClaimsParameter, s: Slot): seq<Member> {
    if IsNullOrEmpty(p.Get(s)) then [] else [Member(SlotKey(s), ValueObject(p.Get(s).value))]
  }

  /** The members toJson has gathered after visiting the first `k` slots of
      its order. */
  function EmitUpTo(p: KycClaimsParameter, k: nat): seq<Member>
    requires k <= 18
  {
    if k == 0 then [] else EmitUpTo(p, k - 1) + EntryFor(p, SlotAt(k - 1))
  }

  /** Positions and slots are in one-to-one correspondence. */
  lemma SlotAtIndex(s: Slot)
    ensures SlotAt(SlotIndex(s)) == s
  {
    match s.attr
    case Name =>
    case GivenName =>
    case FamilyName =>
    case Address =>
    case HousenoOrHousename =>
    case PostalCode =>
    case Town =>
    case Country =>
    case Birthdate =>
  }

  /** Every member emitted is the `{value: v}` object of a present slot
      visited so far. */
  lemma {:induction false} EmitSound(p: KycClaimsParameter, k: nat)
    requires k <= 18
    ensures forall i :: 0 <= i < |EmitUpTo(p, k)| ==>
      var m := EmitUpTo(p, k)[i];
      m.key.SlotKey? && SlotIndex(m.key.slot) < k && !IsNullOrEmpty(p.Get(m.key.slot))
      && m.value == ValueObject(p.Get(m.key.slot).value)
  {
    if k > 0 {
      EmitSound(p, k - 1);
    }
  }

  /** Every present slot visited so far is emitted. */
  lemma {:induction false} EmitComplete(p: KycClaimsParameter, k: nat, s: Slot)
    requires k <= 18 && SlotIndex(s) < k && !IsNullOrEmpty(p.Get(s))
    ensures HasKey(EmitUpTo(p, k), SlotKey(s))
  {
    if SlotIndex(s) == k - 1 {
      SlotAtIndex(s);
      assert EmitUpTo(p, k)[|EmitUpTo(p, k - 1)|].key == SlotKey(s);
    } else {
      EmitComplete(p, k - 1, s);
      var i :| 0 <= i < |EmitUpTo(p, k - 1)| && EmitUpTo(p, k - 1)[i].key == SlotKey(s);
      assert EmitUpTo(p, k)[i] == EmitUpTo(p, k - 1)[i];
    }
  }

  /** Every member has a slot key, and the slots strictly increase in
      toJson's order (so no key repeats). */
  predicate InSlotOrder(ms: seq<Member>) {
    forall i, j :: 0 <= i < j < |ms| ==>
      ms[i].key.SlotKey? && ms[j].key.SlotKey? && SlotIndex(ms[i].key.slot) < SlotIndex(ms[j].key.slot)
  }

  /** Members come in increasing slot order, hence with distinct keys. */
  lemma {:induction false} EmitOrdered(p: KycClaimsParameter, k: nat)
    requires k <= 18
    ensures InSlotOrder(EmitUpTo(p, k))
  {
    if k > 0 {
      var prev := EmitUpTo(p, k - 1);
      var all := EmitUpTo(p, k);
      EmitOrdered(p, k - 1);
      EmitSound(p, k - 1);
      assert all == prev + EntryFor(p, SlotAt(k - 1));
      forall i, j | 0 <= i < j < |all|
        ensures all[i].key.SlotKey? && all[j].key.SlotKey? && SlotIndex(all[i].key.slot) < SlotIndex(all[j].key.slot)
      {
        assert all[i] == prev[i];
        if j < |prev| {
          assert all[j] == prev[j];
        } else {
          assert all[j] == EntryFor(p, SlotAt(k - 1))[0];
          assert SlotIndex(all[j].key.slot) == k - 1;
        }
      }
    } else {
      assert EmitUpTo(p, k) == [];
    }
  }

  /** One step of toJson: visiting slot `s` at position `k` appends its
      member, and since that key is new, Jackson's put appends it too. */
  lemma EmitStep(p: KycClaimsParameter, k: nat, members: seq<Member>, param: Option<string>, s: Slot)
    requires k < 18 && members == EmitUpTo(p, k)
    requires s == SlotAt(k) && param == p.Get(s)
    ensures EmitUpTo(p, k + 1) == ParamStep(members, param, s)
  {
    EmitSound(p, k);
    assert !HasKey(members, SlotKey(s));
  }

  /** Nothing is emitted when no slot is present. */
  lemma {:induction false} EmitNothing(p: KycClaimsParameter, k: nat)
    requires k <= 18
    requires forall s :: IsNullOrEmpty(p.Get(s))
    ensures EmitUpTo(p, k) == []
  {
    if k > 0 {
      EmitNothing(p, k - 1);
    }
  }

  /** When only slot `s` may be present, at most its member is emitted. */
  lemma {:induction false} EmitOnly(p: KycClaimsParameter, k: nat, s: Slot)
    requires k <= 18
    requires forall t :: t != s ==> IsNullOrEmpty(p.Get(t))
    ensures EmitUpTo(p, k) == if SlotIndex(s) < k then EntryFor(p, s) else []
  {
    if k > 0 {
      EmitOnly(p, k - 1, s);
      SlotAtIndex(s);
    }
  }

  // ---------------------------------------------------------------------
  // What toJson promises
  // ---------------------------------------------------------------------

  /** The inner object has a key for a slot exactly when that slot is non-null
      and non-empty, and no key other than slot keys. */
  lemma ClaimsKeySet(p: KycClaimsParameter, s: Slot)
    ensures HasKey(p.ClaimsMembers(), SlotKey(s)) <==> !IsNullOrEmpty(p.Get(s))
    ensures !HasKey(p.ClaimsMembers(), PremiumInfoKey) && !HasKey(p.ClaimsMembers(), ValueKey)
  {
    EmitSound(p, 18);
    if !IsNullOrEmpty(p.Get(s)) {
      EmitComplete(p, 18, s);
    }
  }

  /** Each member is `{value: v}` with v the slot's string, unchanged. */
  lemma ClaimsValues(p: KycClaimsParameter)
    ensures forall m :: m in p.ClaimsMembers() ==>
      m.key.SlotKey? && p.Get(m.key.slot).Some? && m.value == ValueObject(p.Get(m.key.slot).value)
  {
    EmitSound(p, 18);
  }

  /** Members come in slot order (plain attributes, then hashed ones, each in
      source order), so no key is repeated. */
  lemma ClaimsOrdered(p: KycClaimsParameter)
    ensures InSlotOrder(p.ClaimsMembers())
  {
    EmitOrdered(p, 18);
  }

  /** With every slot unset the document is a wrapper around an empty object. */
  lemma UnsetIsEmptyObject()
    ensures Unset().ClaimsMembers() == []
    ensures PremiumInfo(Unset().ClaimsMembers()) == JObject([Member(PremiumInfoKey, JObject([]))])
  {
    EmitNothing(Unset(), 18);
  }

  /** With only the plain birthdate set, the inner object has exactly one
      member. */
  lemma OnlyBirthdate(v: string)
    requires v != ""
    ensures Unset().With(Slot(Birthdate, false), Some(v)).ClaimsMembers()
         == [Member(SlotKey(Slot(Birthdate, false)), ValueObject(v))]
  {
    EmitOnly(Unset().With(Slot(Birthdate, false), Some(v)), 18, Slot(Birthdate, false));
  }

  // ---------------------------------------------------------------------
  // The builder
  // ---------------------------------------------------------------------

  /**
   * The slot a `with*` setter assigns, given the slot it is named after. As
   * written, withFamilyName and withFamilyNameHashed assign the given-name
   * slots; every other setter assigns its own slot.
   */
  function WrittenSlot(named: Slot): (written: Slot)
    ensures written.attr != FamilyName
    ensures named.attr == FamilyName ==> written == Slot(GivenName, named.hashed)
    ensures named.attr != FamilyName ==> written == named
    ensures written.hashed == named.hashed
  {
    if named.attr == FamilyName then Slot(GivenName, named.hashed) else named
  }

  /** One setter call: the setter, named by its slot, and its argument. */
  datatype SetterCall = SetterCall(setter: Slot, value: Option<string>)

  /** The value built after `calls` on a builder holding `p`, as written. */
  function Replay(p: KycClaimsParameter, calls: seq<SetterCall>): KycClaimsParameter
    decreases |calls|
  {
    if calls == [] then p
    else
      var last := calls[|calls| - 1];
      Replay(p, calls[..|calls| - 1]).With(WrittenSlot(last.setter), last.value)
  }

  /** No sequence of setter calls changes the family-name slots. */
  lemma {:induction false} ReplayKeepsFamilyName(p: KycClaimsParameter, calls: seq<SetterCall>)
    ensures Replay(p, calls).familyName == p.familyName
    ensures Replay(p, calls).familyNameHashed == p.familyNameHashed
  {
    if calls != [] {
      var last := calls[|calls| - 1];
      ReplayKeepsFamilyName(p, calls[..|calls| - 1]);
      assert Replay(p, calls).familyName == Replay(p, calls).Get(Slot(FamilyName, false));
      assert Replay(p, calls).familyNameHashed == Replay(p, calls).Get(Slot(FamilyName, true));
    }
  }

  /** As written, a built parameter never carries a family name, plain or
      hashed, and so toJson never emits those keys. */
  lemma BuiltFamilyNameAlwaysNull(calls: seq<SetterCall>)
    ensures Replay(Unset(), calls).familyName.None?
    ensures Replay(Unset(), calls).familyNameHashed.None?
    ensures !HasKey(Replay(Unset(), calls).ClaimsMembers(), SlotKey(Slot(FamilyName, false)))
    ensures !HasKey(Replay(Unset(), calls).ClaimsMembers(), SlotKey(Slot(FamilyName, true)))
  {
    ReplayKeepsFamilyName(Unset(), calls);
    ClaimsKeySet(Replay(Unset(), calls), Slot(FamilyName, false));
    ClaimsKeySet(Replay(Unset(), calls), Slot(FamilyName, true));
  }

  /** As written, withFamilyName(v) and withFamilyNameHashed(v), after any
      earlier calls, set the given-name slot of the same form to v and leave
      the family-name slot as it was. */
  lemma FamilySetterSetsGivenName(p: KycClaimsParameter, calls: seq<SetterCall>, hashed: bool, v: Option<string>)
    ensures Replay(p, calls + [SetterCall(Slot(FamilyName, hashed), v)])
         == Replay(p, calls).With(Slot(GivenName, hashed), v)
    ensures Replay(p, calls + [SetterCall(Slot(FamilyName, hashed), v)]).Get(Slot(GivenName, hashed)) == v
    ensures Replay(p, calls + [SetterCall(Slot(FamilyName, hashed), v)]).Get(Slot(FamilyName, hashed))
         == Replay(p, calls).Get(Slot(FamilyName, hashed))
  {
    assert (calls + [SetterCall(Slot(FamilyName, hashed), v)])[..|calls|] == calls;
  }

  /** The evidently intended builder: every setter assigns the slot it is
      named after. */
  function ReplayIntended(p: KycClaimsParameter, calls: seq<SetterCall>): KycClaimsParameter
    decreases |calls|
  {
    if calls == [] then p
    else
      var last := calls[|calls| - 1];
      ReplayIntended(p, calls[..|calls| - 1]).With(last.setter, last.value)
  }

  /** With the intended setters the last call naming a slot decides it, and a
      slot no call names stays null. */
  lemma {:induction false} ReplayIntendedLastWins(calls: seq<SetterCall>, s: Slot)
    ensures (forall i :: 0 <= i < |calls| ==> calls[i].setter != s) ==>
      ReplayIntended(Unset(), calls).Get(s) == None
    ensures forall i :: 0 <= i < |calls| && calls[i].setter == s
                        && (forall j :: i < j < |calls| ==> calls[j].setter != s) ==>
      ReplayIntended(Unset(), calls).Get(s) == calls[i].value
    decreases |calls|
  {
    if calls != [] {
      var front := calls[..|calls| - 1];
      ReplayIntendedLastWins(front, s);
      assert forall i :: 0 <= i < |front| ==> front[i] == calls[i];
    }
  }

  /** The setter calls that give every slot its value in `target`. */
  function CallsFor(target: KycClaimsParameter): seq<SetterCall> {
    seq(18, i requires 0 <= i < 18 => SetterCall(SlotAt(i), target.Get(SlotAt(i))))
  }

  /** Two parameters that agree on every getter are equal. */
  lemma GettersDetermine(p: KycClaimsParameter, q: KycClaimsParameter)
    requires forall s :: p.Get(s) == q.Get(s)
    ensures p == q
  {
    assert p.name == q.name by { assert p.Get(Slot(Name, false)) == q.Get(Slot(Name, false)); }
    assert p.givenName == q.givenName by { assert p.Get(Slot(GivenName, false)) == q.Get(Slot(GivenName, false)); }
    assert p.familyName == q.familyName by { assert p.Get(Slot(FamilyName, false)) == q.Get(Slot(FamilyName, false)); }
    assert p.address == q.address by { assert p.Get(Slot(Address, false)) == q.Get(Slot(Address, false)); }
    assert p.housenoOrHousename == q.housenoOrHousename by {
      assert p.Get(Slot(HousenoOrHousename, false)) == q.Get(Slot(HousenoOrHousename, false));
    }
    assert p.postalCode == q.postalCode by { assert p.Get(Slot(PostalCode, false)) == q.Get(Slot(PostalCode, false)); }
    assert p.town == q.town by { assert p.Get(Slot(Town, false)) == q.Get(Slot(Town, false)); }
    assert p.country == q.country by { assert p.Get(Slot(Country, false)) == q.Get(Slot(Country, false)); }
    assert p.birthdate == q.birthdate by { assert p.Get(Slot(Birthdate, false)) == q.Get(Slot(Birthdate, false)); }
    assert p.nameHashed == q.nameHashed by { assert p.Get(Slot(Name, true)) == q.Get(Slot(Name, true)); }
    assert p.givenNameHashed == q.givenNameHashed by { assert p.Get(Slot(GivenName, true)) == q.Get(Slot(GivenName, true)); }
    assert p.familyNameHashed == q.familyNameHashed by {
      assert p.Get(Slot(FamilyName, true)) == q.Get(Slot(FamilyName, true));
    }
    assert p.addressHashed == q.addressHashed by { assert p.Get(Slot(Address, true)) == q.Get(Slot(Address, true)); }
    assert p.housenoOrHousenameHashed == q.housenoOrHousenameHashed by {
      assert p.Get(Slot(HousenoOrHousename, true)) == q.Get(Slot(HousenoOrHousename, true));
    }
    assert p.postalCodeHashed == q.postalCodeHashed by {
      assert p.Get(Slot(PostalCode, true)) == q.Get(Slot(PostalCode, true));
    }
    assert p.townHashed == q.townHashed by { assert p.Get(Slot(Town, true)) == q.Get(Slot(Town, true)); }
    assert p.countryHashed == q.countryHashed by { assert p.Get(Slot(Country, true)) == q.Get(Slot(Country, true)); }
    assert p.birthdateHashed == q.birthdateHashed by {
      assert p.Get(Slot(Birthdate, true)) == q.Get(Slot(Birthdate, true));
    }
  }

  /** After the first `k` calls of CallsFor(target), the slots before position
      `k` hold the target's values and the others are still unset. */
  lemma {:induction false} IntendedPrefix(target: KycClaimsParameter, k: nat)
    requires k <= 18
    ensures forall s :: ReplayIntended(Unset(), CallsFor(target)[..k]).Get(s)
                        == if SlotIndex(s) < k then target.Get(s) else None
  {
    if k > 0 {
      var calls := CallsFor(target)[..k];
      assert calls[..k - 1] == CallsFor(target)[..k - 1];
      IntendedPrefix(target, k - 1);
      var s0 := SlotAt(k - 1);
      assert calls[k - 1] == SetterCall(s0, target.Get(s0));
    }
  }

  /** With the intended setters every combination of slot values can be built,
      family names included. */
  lemma IntendedBuilderReachesEveryValue(target: KycClaimsParameter)
    ensures ReplayIntended(Unset(), CallsFor(target)) == target
  {
    IntendedPrefix(target, 18);
    assert CallsFor(target)[..18] == CallsFor(target);
    GettersDetermine(ReplayIntended(Unset(), CallsFor(target)), target);
  }

  /** As written, no call sequence builds a value with a family name. */
  lemma AsWrittenBuilderMissesFamilyNames(target: KycClaimsParameter, calls: seq<SetterCall>)
    requires target.familyName.Some? || target.familyNameHashed.Some?
    ensures Replay(Unset(), calls) != target
  {
    BuiltFamilyNameAlwaysNull(calls);
  }

  /**
   * KYCClaimsParameter.Builder: 18 mutable slots, all null at first. The ghost
   * `history` records the setter calls made so far.
   */
  class Builder {
    var name: Option<string>
    var givenName: Option<string>
    var familyName: Option<string>
    var address: Option<string>
    var housenoOrHousename: Option<string>
    var postalCode: Option<string>
    var town: Option<string>
    var country: Option<string>
    var birthdate: Option<string>
    var nameHashed: Option<string>
    var givenNameHashed: Option<string>
    var familyNameHashed: Option<string>
    var addressHashed: Option<string>
    var housenoOrHousenameHashed: Option<string>
    var postalCodeHashed: Option<string>
    var townHashed: Option<string>
    var countryHashed: Option<string>
    var birthdateHashed: Option<string>
    ghost var history: seq<SetterCall>

    /** The value the private KYCClaimsParameter constructor copies from this
        builder, field for field. */
    function Snapshot(): KycClaimsParameter
      reads this
    {
      KycClaimsParameter(name, givenName, familyName, address, housenoOrHousename, postalCode, town, country,
                         birthdate, nameHashed, givenNameHashed, familyNameHashed, addressHashed,
                         housenoOrHousenameHashed, postalCodeHashed, townHashed, countryHashed, birthdateHashed)
    }

    /** The slots hold what the recorded setter calls give a fresh builder,
        with every setter assigning the slot it is named after. */
    ghost predicate Valid()
      reads this
    {
      Snapshot() == ReplayIntended(Unset(), history)
    }

    constructor ()
      ensures Valid() && history == []
      ensures Snapshot() == Unset()
    {
      name, givenName, familyName, address, housenoOrHousename := None, None, None, None, None;
      postalCode, town, country, birthdate := None, None, None, None;
      nameHashed, givenNameHashed, familyNameHashed, addressHashed, housenoOrHousenameHashed := None, None, None, None, None;
      postalCodeHashed, townHashed, countryHashed, birthdateHashed := None, None, None, None;
      history := [];
    }

    /** Record `call` after its slot has been assigned. */
    ghost method Record(call: SetterCall)
      requires Snapshot() == ReplayIntended(Unset(), history).With(call.setter, call.value)
      modifies this`history
      ensures history == old(history) + [call]
      ensures Valid()
    {
      history := history + [call];
      assert history[..|history| - 1] == old(history);
    }

    method WithName(val: Option<string>) returns (b: Builder)
      requires Valid()
      modifies this`name, this`history
      ensures b == this && Valid()
      ensures history == old(history) + [SetterCall(Slot(Name, false), val)]
      ensures Snapshot() == old(Snapshot()).With(Slot(Name, false), val)
    {
      name := val;
      Record(SetterCall(Slot(Name, false), val));
      b := this;
    }

    method WithGivenName(val: Option<string>) returns (b: Builder)
      requires Valid()
      modifies this`givenName, this`history
      ensures b == this && Valid()
      ensures history == old(history) + [SetterCall(Slot(GivenName, false), val)]
      ensures Snapshot() == old(Snapshot()).With(Slot(GivenName, false), val)
    {
      givenName := val;
      Record(SetterCall(Slot(GivenName, false), val));
      b := this;
    }

    /** Corrected: assigns the family-name slot (as written, the setter
        assigns the given-name slot; see WrittenSlot). */
    method WithFamilyName(val: Option<string>) returns (b: Builder)
      requires Valid()
      modifies this`familyName, this`history
      ensures b == this && Valid()
      ensures history == old(history) + [SetterCall(Slot(FamilyName, false), val)]
      ensures Snapshot() == old(Snapshot()).With(Slot(FamilyName, false), val)
    {
      familyName := val;
      Record(SetterCall(Slot(FamilyName, false), val));
      b := this;
    }

    method WithAddress(val: Option<string>) returns (b: Builder)
      requires Valid()
      modifies this`address, this`history
      ensures b == this && Valid()
      ensures history == old(history) + [SetterCall(Slot(Address, false), val)]
      ensures Snapshot() == old(Snapshot()).With(Slot(Address, false), val)
    {
      address := val;
      Record(SetterCall(Slot(Address, false), val));
      b := this;
    }

    method WithHousenoOrHousename(val: Option<string>) returns (b: Builder)
      requires Valid()
      modifies this`housenoOrHousename, this`history
      ensures b == this && Valid()
      ensures history == old(history) + [SetterCall(Slot(HousenoOrHousename, false), val)]
      ensures Snapshot() == old(Snapshot()).With(Slot(HousenoOrHousename, false), val)
    {
      housenoOrHousename := val;
      Record(SetterCall(Slot(HousenoOrHousename, false), val));
      b := this;
    }

    method WithPostalCode(val: Option<string>) returns (b: Builder)
      requires Valid()
      modifies this`postalCode, this`history
      ensures b == this && Valid()
      ensures history == old(history) + [SetterCall(Slot(PostalCode, false), val)]
      ensures Snapshot() == old(Snapshot()).With(Slot(PostalCode, false), val)
    {
      postalCode := val;
      Record(SetterCall(Slot(PostalCode, false), val));
      b := this;
    }

    method WithTown(val: Option<string>) returns (b: Builder)
      requires Valid()
      modifies this`town, this`history
      ensures b == this && Valid()
      ensures history == old(history) + [SetterCall(Slot(Town, false), val)]
      ensures Snapshot() == old(Snapshot()).With(Slot(Town, false), val)
    {
      town := val;
      Record(SetterCall(Slot(Town, false), val));
      b := this;
    }

    method WithCountry(val: Option<string>) returns (b: Builder)
      requires Valid()
      modifies this`country, this`history
      ensures b == this && Valid()
      ensures history == old(history) + [SetterCall(Slot(Country, false), val)]
      ensures Snapshot() == old(Snapshot()).With(Slot(Country, false), val)
    {
      country := val;
      Record(SetterCall(Slot(Country, false), val));
      b := this;
    }

    method WithBirthdate(val: Option<string>) returns (b: Builder)
      requires Valid()
      modifies this`birthdate, this`history
      ensures b == this && Valid()
      ensures history == old(history) + [SetterCall(Slot(Birthdate, false), val)]
      ensures Snapshot() == old(Snapshot()).With(Slot(Birthdate, false), val)
    {
      birthdate := val;
      Record(SetterCall(Slot(Birthdate, false), val));
      b := this;
    }

    method WithNameHashed(val: Option<string>) returns (b: Builder)
      requires Valid()
      modifies this`nameHashed, this`history
      ensures b == this && Valid()
      ensures history == old(history) + [SetterCall(Slot(Name, true), val)]
      ensures Snapshot() == old(Snapshot()).With(Slot(Name, true), val)
    {
      nameHashed := val;
      Record(SetterCall(Slot(Name, true), val));
      b := this;
    }

    method WithGivenNameHashed(val: Option<string>) returns (b: Builder)
      requires Valid()
      modifies this`givenNameHashed, this`history
      ensures b == this && Valid()
      ensures history == old(history) + [SetterCall(Slot(GivenName, true), val)]
      ensures Snapshot() == old(Snapshot()).With(Slot(GivenName, true), val)
    {
      givenNameHashed := val;
      Record(SetterCall(Slot(GivenName, true), val));
      b := this;
    }

    /** Corrected: assigns the hashed family-name slot (as written, the
        setter assigns the hashed given-name slot; see WrittenSlot). */
    method WithFamilyNameHashed(val: Option<string>) returns (b: Builder)
      requires Valid()
      modifies this`familyNameHashed, this`history
      ensures b == this && Valid()
      ensures history == old(history) + [SetterCall(Slot(FamilyName, true), val)]
      ensures Snapshot() == old(Snapshot()).With(Slot(FamilyName, true), val)
    {
      familyNameHashed := val;
      Record(SetterCall(Slot(FamilyName, true), val));
      b := this;
    }

    method WithAddressHashed(val: Option<string>) returns (b: Builder)
      requires Valid()
      modifies this`addressHashed, this`history
      ensures b == this && Valid()
      ensures history == old(history) + [SetterCall(Slot(Address, true), val)]
      ensures Snapshot() == old(Snapshot()).With(Slot(Address, true), val)
    {
      addressHashed := val;
      Record(SetterCall(Slot(Address, true), val));
      b := this;
    }

    method WithHousenoOrHousenameHashed(val: Option<string>) returns (b: Builder)
      requires Valid()
      modifies this`housenoOrHousenameHashed, this`history
      ensures b == this && Valid()
      ensures history == old(history) + [SetterCall(Slot(HousenoOrHousename, true), val)]
      ensures Snapshot() == old(Snapshot()).With(Slot(HousenoOrHousename, true), val)
    {
      housenoOrHousenameHashed := val;
      Record(SetterCall(Slot(HousenoOrHousename, true), val));
      b := this;
    }

    method WithPostalCodeHashed(val: Option<string>) returns (b: Builder)
      requires Valid()
      modifies this`postalCodeHashed, this`history
      ensures b == this && Valid()
      ensures history == old(history) + [SetterCall(Slot(PostalCode, true), val)]
      ensures Snapshot() == old(Snapshot()).With(Slot(PostalCode, true), val)
    {
      postalCodeHashed := val;
      Record(SetterCall(Slot(PostalCode, true), val));
      b := this;
    }

    method WithTownHashed(val: Option<string>) returns (b: Builder)
      requires Valid()
      modifies this`townHashed, this`history
      ensures b == this && Valid()
      ensures history == old(history) + [SetterCall(Slot(Town, true), val)]
      ensures Snapshot() == old(Snapshot()).With(Slot(Town, true), val)
    {
      townHashed := val;
      Record(SetterCall(Slot(Town, true), val));
      b := this;
    }

    method WithCountryHashed(val: Option<string>) returns (b: Builder)
      requires Valid()
      modifies this`countryHashed, this`history
      ensures b == this && Valid()
      ensures history == old(history) + [SetterCall(Slot(Country, true), val)]
      ensures Snapshot() == old(Snapshot()).With(Slot(Country, true), val)
    {
      countryHashed := val;
      Record(SetterCall(Slot(Country, true), val));
      b := this;
    }

    method WithBirthdateHashed(val: Option<string>) returns (b: Builder)
      requires Valid()
      modifies this`birthdateHashed, this`history
      ensures b == this && Valid()
      ensures history == old(history) + [SetterCall(Slot(Birthdate, true), val)]
      ensures Snapshot() == old(Snapshot()).With(Slot(Birthdate, true), val)
    {
      birthdateHashed := val;
      Record(SetterCall(Slot(Birthdate, true), val));
      b := this;
    }

    /**
     * build: a parameter whose 18 getters return the builder's slots, which
     * are what the setter calls so far give a fresh builder; by
     * ReplayIntendedLastWins each slot holds the argument of the last call
     * naming it, or null.
     */
    method Build() returns (p: KycClaimsParameter)
      requires Valid()
      ensures forall s :: p.Get(s) == Snapshot().Get(s)
      ensures p == ReplayIntended(Unset(), history)
    {
      p := KycClaimsParameter(name, givenName, familyName, address, housenoOrHousename, postalCode, town, country,
                              birthdate, nameHashed, givenNameHashed, familyNameHashed, addressHashed,
                              housenoOrHousenameHashed, postalCodeHashed, townHashed, countryHashed, birthdateHashed);
    }
  }
}

# Mobile Connect: version detection and KYC claims, modelled in Dafny

This project models two components of the GSMA Mobile Connect server-side
Java library and proves properties of the models.

- **Version detection** (`VersionDetection.dfy`) models `VersionDetection.getCurrentVersion`.
  It picks the Mobile Connect protocol version that an authorization request uses.
  - A recognised explicit version is taken as it is. Only a warning notes that the provider does not list it.
  - Otherwise the version is inferred by a first-match rule chain. The chain runs over scope predicates that overlap: V2_3, then V2_0, then V1_1, then the deprecated fallback V1_2.
  - When no rule matches, the result is an `InvalidScopeException` that carries the raw scope string.
  - The model is made of pure functions and lemmas.
  - Versions and scope tokens are closed datatypes. Each has one extra case for text that matches no named constant.
  - The scope list is a sequence of tokens, so order and duplicates are kept.
  - A logged warning becomes a `Diagnostic` value in the result. An exception becomes the `InvalidScope` case of `Resolution`.
- **KYC claims parameter** (`KycClaims.dfy`) models `KYCClaimsParameter` and its `Builder`.
  - The immutable value is a datatype with 18 optional strings: nine attributes, each in plain and hashed form. Java `null` is `None`.
  - The getters are its field selectors. `Get` reads a slot by name.
  - `Builder` is a class with the 18 mutable fields. Each setter assigns in place, states its frame in `modifies`, and returns `this`.
  - A ghost `history` records the setter calls. The invariant `Valid` ties the fields to a replay of those calls.
  - `toJson` and `paramToJson` are methods. They grow an `ObjectNode` class, an ordered member list standing for Jackson's object node, by successive `putPOJO` calls.
  - The methods are proved against `EmitUpTo`. This specification lists the members gathered after visiting the first k slots. The lemmas give its key set, its values and its order.
  - The JSON document is a small tree datatype (`Json`), not text.
  - Serialisation failure is an input of `ToJson`. It yields `None`, the library's `null` result.

Three behaviours of the code are easy to misread; the model follows the code:
- The V1.1 rule tests the *length* of the token list, which includes duplicates. It does not test the set of distinct tokens.
- A provider that advertises an empty version list keeps that empty list, so every inference fails. The list is not replaced by `[V1_1]`.
- `openid kyc_hashed` on a provider that lists only V1_2 ends in `InvalidScope`, not in the V1_2 fallback. `kyc_hashed` is one of the version 2.3 disjuncts only, not of the version 2.0 predicate that the fallback requires (see `KycHashedScopes`).

`Wrappers.dfy` holds the `Option` type.

## Model

| member | source | states |
|---|---|---|
| VersionDetection.IsVersionSupported | mobile-connect-library/src/main/java/com/gsma/mobileconnect/r2/discovery/VersionDetection.java:40-43 | definition: the explicit version is one of the four recognised constants |
| VersionDetection.ContainsOpenIdScope | mobile-connect-library/src/main/java/com/gsma/mobileconnect/r2/discovery/VersionDetection.java:45-47 | definition: `openid` is among the tokens |
| VersionDetection.ContainsUniversalScopes | mobile-connect-library/src/main/java/com/gsma/mobileconnect/r2/discovery/VersionDetection.java:49-57 | definition: one of the ten validation, value-share or match scopes is among the tokens |
| VersionDetection.ContainsScopesV1_1 | mobile-connect-library/src/main/java/com/gsma/mobileconnect/r2/discovery/VersionDetection.java:59-62 | holds exactly for the list `[openid]` or for `openid` together with a universal scope |
| VersionDetection.ContainsScopesV2_0 | mobile-connect-library/src/main/java/com/gsma/mobileconnect/r2/discovery/VersionDetection.java:64-70 | holds only for lists of at least two tokens, `openid` and a second scope |
| VersionDetection.ContainsScopesV2_3 | mobile-connect-library/src/main/java/com/gsma/mobileconnect/r2/discovery/VersionDetection.java:72-75 | holds only for lists of at least two tokens, `openid` and a second scope |
| VersionDetection.SupportedVersions | mobile-connect-library/src/main/java/com/gsma/mobileconnect/r2/discovery/VersionDetection.java:77-85 | `[V1_1]` when the metadata or its version list is null, else the provider's list verbatim; the result is empty exactly when the provider advertises an empty list |
| VersionDetection.GetCurrentVersion | mobile-connect-library/src/main/java/com/gsma/mobileconnect/r2/discovery/VersionDetection.java:15-38 | a recognised explicit version is returned unchanged, warned about exactly when it is not in the supported list; an inferred version is always supported; failure only without an explicit version and carrying the raw scope; the unsupported-version warning only for an explicit version; no `openid` means failure; V1_2 only as sole supported version with version 2.0 scopes; the deprecation warning exactly on that fallback |
| VersionDetection.ScopePredicatesNeedOpenId | mobile-connect-library/src/main/java/com/gsma/mobileconnect/r2/discovery/VersionDetection.java:59-75 | every version scope predicate implies `openid` is among the tokens |
| VersionDetection.V2_0ScopesAreV2_3Scopes | mobile-connect-library/src/main/java/com/gsma/mobileconnect/r2/discovery/VersionDetection.java:72-75 | the version 2.0 predicate implies the version 2.3 predicate |
| VersionDetection.V1_1ScopesOnSeveralTokensAreV2_0Scopes | mobile-connect-library/src/main/java/com/gsma/mobileconnect/r2/discovery/VersionDetection.java:49-70 | on more than one token a version 1.1 match is a version 2.0 and 2.3 match |
| VersionDetection.OpenIdAloneIsOnlyV1_1 | mobile-connect-library/src/main/java/com/gsma/mobileconnect/r2/discovery/VersionDetection.java:59-75 | `[openid]` satisfies the version 1.1 predicate and neither of the others |
| VersionDetection.RepeatedOpenIdMatchesNothing | mobile-connect-library/src/main/java/com/gsma/mobileconnect/r2/discovery/VersionDetection.java:59-61 | `[openid, openid]` satisfies no predicate, since the length test counts duplicates |
| VersionDetection.UnrecognisedVersionFallsThrough | mobile-connect-library/src/main/java/com/gsma/mobileconnect/r2/discovery/VersionDetection.java:17-23 | an unrecognised explicit version gives exactly the result of no explicit version |
| VersionDetection.InferencePriority | mobile-connect-library/src/main/java/com/gsma/mobileconnect/r2/discovery/VersionDetection.java:24-36 | for inference, each of the four outcomes holds if and only if its rule matches and no earlier rule does, and the InvalidScope failure holds if and only if no rule matches; V2_0 needs V2_3 to be unsupported |
| VersionDetection.V2_0ScopesPreferV2_3 | mobile-connect-library/src/main/java/com/gsma/mobileconnect/r2/discovery/VersionDetection.java:24-27 | with V2_3 supported, version 2.0 scopes resolve to V2_3 |
| VersionDetection.EmptyProviderListFails | mobile-connect-library/src/main/java/com/gsma/mobileconnect/r2/discovery/VersionDetection.java:77-85 | with an empty provider list every inference fails with the raw scope |
| VersionDetection.NoMetadataInfersOnlyV1_1 | mobile-connect-library/src/main/java/com/gsma/mobileconnect/r2/discovery/VersionDetection.java:24-35 | without metadata inference yields V1_1 exactly for version 1.1 scopes and fails otherwise |
| VersionDetection.OpenIdAloneOnV1_1Provider | mobile-connect-library/src/main/java/com/gsma/mobileconnect/r2/discovery/VersionDetection.java:28-29 | `openid` on a V1_1 provider resolves to V1_1 |
| VersionDetection.AuthzOnV1_1AndV2_0Provider | mobile-connect-library/src/main/java/com/gsma/mobileconnect/r2/discovery/VersionDetection.java:26-27 | `openid authz` on a V1_1 and V2_0 provider resolves to V2_0 |
| VersionDetection.KycHashedScopes | mobile-connect-library/src/main/java/com/gsma/mobileconnect/r2/discovery/VersionDetection.java:24-35 | `openid kyc_hashed` resolves to V2_3 when listed and fails on a V1_2-only provider |
| VersionDetection.AuthnOnV1_2OnlyProvider | mobile-connect-library/src/main/java/com/gsma/mobileconnect/r2/discovery/VersionDetection.java:30-32 | `openid authn` on a V1_2-only provider takes the deprecated fallback with its warning |
| VersionDetection.ExplicitV2_0WithoutMetadata | mobile-connect-library/src/main/java/com/gsma/mobileconnect/r2/discovery/VersionDetection.java:17-21 | an explicit V2_0 without metadata is returned with an unsupported-version warning |
| KycClaims.SlotAt | mobile-connect-library/src/main/java/com/gsma/mobileconnect/r2/claims/KYCClaimsParameter.java:84-102 | position i of toJson's visiting order names the slot whose index is i |
| KycClaims.SlotAtIndex | mobile-connect-library/src/main/java/com/gsma/mobileconnect/r2/claims/KYCClaimsParameter.java:84-102 | every slot sits at exactly one position of toJson's order |
| KycClaims.PutMember | mobile-connect-library/src/main/java/com/gsma/mobileconnect/r2/claims/KYCClaimsParameter.java:119 | putting a new key appends it; putting an existing key replaces its value in place, keeping every other member and the order |
| KycClaims.ObjectNode.constructor | mobile-connect-library/src/main/java/com/gsma/mobileconnect/r2/claims/KYCClaimsParameter.java:83 | a freshly created object node has no members |
| KycClaims.ObjectNode.PutPojo | mobile-connect-library/src/main/java/com/gsma/mobileconnect/r2/claims/KYCClaimsParameter.java:119 | the node's members become the put of the key and value into the old members |
| KycClaims.ObjectNode.PutString | mobile-connect-library/src/main/java/com/gsma/mobileconnect/r2/claims/KYCClaimsParameter.java:118 | as PutPojo, with a string leaf as value |
| KycClaims.KycClaimsParameter.Get | mobile-connect-library/src/main/java/com/gsma/mobileconnect/r2/claims/KYCClaimsParameter.java:124-197 | definition: the getter of each of the 18 slots |
| KycClaims.ParamStep | mobile-connect-library/src/main/java/com/gsma/mobileconnect/r2/claims/KYCClaimsParameter.java:115-122 | a null or empty parameter leaves the members as they are; a present one under a new key is appended as `{value: param}`, under an existing key it replaces that member |
| KycClaims.KycClaimsParameter.With | mobile-connect-library/src/main/java/com/gsma/mobileconnect/r2/claims/KYCClaimsParameter.java:220-326 | assigning one slot sets that slot's getter and leaves the other 17 unchanged |
| KycClaims.KycClaimsParameter.ParamToJson | mobile-connect-library/src/main/java/com/gsma/mobileconnect/r2/claims/KYCClaimsParameter.java:115-122 | the same node is returned; its members gain `{value: param}` under the slot's key when the parameter is non-null and non-empty, and are untouched otherwise |
| KycClaims.KycClaimsParameter.ToJson | mobile-connect-library/src/main/java/com/gsma/mobileconnect/r2/claims/KYCClaimsParameter.java:82-113 | the result is `{premiuminfo: {...}}` over exactly the members EmitUpTo lists for all 18 slots, or null when serialisation fails |
| KycClaims.Unset | mobile-connect-library/src/main/java/com/gsma/mobileconnect/r2/claims/KYCClaimsParameter.java:201-218 | a fresh builder's slots are all null |
| KycClaims.EmitSound | mobile-connect-library/src/main/java/com/gsma/mobileconnect/r2/claims/KYCClaimsParameter.java:84-102 | every gathered member is a slot key of a visited, non-null, non-empty slot with `{value: v}` as value |
| KycClaims.EmitComplete | mobile-connect-library/src/main/java/com/gsma/mobileconnect/r2/claims/KYCClaimsParameter.java:84-102 | every visited non-null, non-empty slot has its key among the gathered members |
| KycClaims.EmitOrdered | mobile-connect-library/src/main/java/com/gsma/mobileconnect/r2/claims/KYCClaimsParameter.java:84-102 | gathered members are in strictly increasing slot order |
| KycClaims.EmitStep | mobile-connect-library/src/main/java/com/gsma/mobileconnect/r2/claims/KYCClaimsParameter.java:115-122 | one paramToJson call on the members gathered so far gathers exactly the next slot's entry (its key is never already present) |
| KycClaims.EmitNothing | mobile-connect-library/src/main/java/com/gsma/mobileconnect/r2/claims/KYCClaimsParameter.java:115-116 | with every slot null or empty nothing is gathered |
| KycClaims.EmitOnly | mobile-connect-library/src/main/java/com/gsma/mobileconnect/r2/claims/KYCClaimsParameter.java:115-122 | when only one slot may be present, at most its entry is gathered |
| KycClaims.ClaimsKeySet | mobile-connect-library/src/main/java/com/gsma/mobileconnect/r2/claims/KYCClaimsParameter.java:84-122 | the inner object has a slot's key if and only if that slot is non-null and non-empty, and no other key |
| KycClaims.ClaimsValues | mobile-connect-library/src/main/java/com/gsma/mobileconnect/r2/claims/KYCClaimsParameter.java:117-119 | each inner member's value is `{value: v}` with the slot's string unchanged |
| KycClaims.ClaimsOrdered | mobile-connect-library/src/main/java/com/gsma/mobileconnect/r2/claims/KYCClaimsParameter.java:84-102 | inner members follow the nine plain slots then the nine hashed ones, each group in source order, so no key repeats |
| KycClaims.UnsetIsEmptyObject | mobile-connect-library/src/main/java/com/gsma/mobileconnect/r2/claims/KYCClaimsParameter.java:104-105 | with every slot unset the document wraps an empty object under `premiuminfo` |
| KycClaims.OnlyBirthdate | mobile-connect-library/src/main/java/com/gsma/mobileconnect/r2/claims/KYCClaimsParameter.java:92 | with only a non-empty birthdate set the inner object is that single member |
| KycClaims.Replay | mobile-connect-library/src/main/java/com/gsma/mobileconnect/r2/claims/KYCClaimsParameter.java:220-326 | definition: the value a builder holds after a sequence of setter calls, each setter assigning the slot WrittenSlot gives, as written |
| KycClaims.WrittenSlot | mobile-connect-library/src/main/java/com/gsma/mobileconnect/r2/claims/KYCClaimsParameter.java:232-236 | as written, the family-name setters (plain and hashed) assign the given-name slot of the same form, never a family-name slot; every other setter assigns its own slot |
| KycClaims.ReplayKeepsFamilyName | mobile-connect-library/src/main/java/com/gsma/mobileconnect/r2/claims/KYCClaimsParameter.java:220-326 | as written, no sequence of setter calls changes either family-name slot |
| KycClaims.BuiltFamilyNameAlwaysNull | mobile-connect-library/src/main/java/com/gsma/mobileconnect/r2/claims/KYCClaimsParameter.java:286-290 | as written, every built parameter has null family names and toJson never emits their keys |
| KycClaims.FamilySetterSetsGivenName | mobile-connect-library/src/main/java/com/gsma/mobileconnect/r2/claims/KYCClaimsParameter.java:232-290 | as written, after any earlier calls, withFamilyName(v) and withFamilyNameHashed(v) set the given-name slot of the same form to v and leave the family-name slot unchanged |
| KycClaims.AsWrittenBuilderMissesFamilyNames | mobile-connect-library/src/main/java/com/gsma/mobileconnect/r2/claims/KYCClaimsParameter.java:203-212 | as written, no call sequence builds a parameter with a family name |
| KycClaims.ReplayIntended | mobile-connect-library/src/main/java/com/gsma/mobileconnect/r2/claims/KYCClaimsParameter.java:220-326 | definition: the value after a sequence of setter calls when every setter assigns the slot it is named after |
| KycClaims.ReplayIntendedLastWins | mobile-connect-library/src/main/java/com/gsma/mobileconnect/r2/claims/KYCClaimsParameter.java:220-326 | with setters that assign their own slot, a slot holds the argument of the last call naming it, or null when no call names it |
| KycClaims.GettersDetermine | mobile-connect-library/src/main/java/com/gsma/mobileconnect/r2/claims/KYCClaimsParameter.java:124-197 | two parameters with equal getters are equal |
| KycClaims.IntendedPrefix | mobile-connect-library/src/main/java/com/gsma/mobileconnect/r2/claims/KYCClaimsParameter.java:220-326 | calling the intended setters in slot order sets exactly the slots called so far |
| KycClaims.IntendedBuilderReachesEveryValue | mobile-connect-library/src/main/java/com/gsma/mobileconnect/r2/claims/KYCClaimsParameter.java:220-326 | with the intended setters every combination of slot values can be built |
| KycClaims.Builder.constructor | mobile-connect-library/src/main/java/com/gsma/mobileconnect/r2/claims/KYCClaimsParameter.java:201-218 | a fresh builder has all 18 slots null and an empty call history |
| KycClaims.Builder.WithName | mobile-connect-library/src/main/java/com/gsma/mobileconnect/r2/claims/KYCClaimsParameter.java:220-224 | assigns only the name slot, records the call, keeps the invariant and returns the same builder |
| KycClaims.Builder.WithGivenName | mobile-connect-library/src/main/java/com/gsma/mobileconnect/r2/claims/KYCClaimsParameter.java:226-230 | assigns only the given-name slot, records the call, keeps the invariant and returns the same builder |
| KycClaims.Builder.WithFamilyName | mobile-connect-library/src/main/java/com/gsma/mobileconnect/r2/claims/KYCClaimsParameter.java:232-236 | corrected: assigns only the family-name slot (see Findings) |
| KycClaims.Builder.WithAddress | mobile-connect-library/src/main/java/com/gsma/mobileconnect/r2/claims/KYCClaimsParameter.java:238-242 | assigns only the address slot, records the call and returns the same builder |
| KycClaims.Builder.WithHousenoOrHousename | mobile-connect-library/src/main/java/com/gsma/mobileconnect/r2/claims/KYCClaimsParameter.java:244-248 | assigns only the house number or name slot, records the call and returns the same builder |
| KycClaims.Builder.WithPostalCode | mobile-connect-library/src/main/java/com/gsma/mobileconnect/r2/claims/KYCClaimsParameter.java:250-254 | assigns only the postal-code slot, records the call and returns the same builder |
| KycClaims.Builder.WithTown | mobile-connect-library/src/main/java/com/gsma/mobileconnect/r2/claims/KYCClaimsParameter.java:256-260 | assigns only the town slot, records the call and returns the same builder |
| KycClaims.Builder.WithCountry | mobile-connect-library/src/main/java/com/gsma/mobileconnect/r2/claims/KYCClaimsParameter.java:262-266 | assigns only the country slot, records the call and returns the same builder |
| KycClaims.Builder.WithBirthdate | mobile-connect-library/src/main/java/com/gsma/mobileconnect/r2/claims/KYCClaimsParameter.java:268-272 | assigns only the birthdate slot, records the call and returns the same builder |
| KycClaims.Builder.WithNameHashed | mobile-connect-library/src/main/java/com/gsma/mobileconnect/r2/claims/KYCClaimsParameter.java:274-278 | assigns only the hashed name slot, records the call and returns the same builder |
| KycClaims.Builder.WithGivenNameHashed | mobile-connect-library/src/main/java/com/gsma/mobileconnect/r2/claims/KYCClaimsParameter.java:280-284 | assigns only the hashed given-name slot, records the call and returns the same builder |
| KycClaims.Builder.WithFamilyNameHashed | mobile-connect-library/src/main/java/com/gsma/mobileconnect/r2/claims/KYCClaimsParameter.java:286-290 | corrected: assigns only the hashed family-name slot (see Findings) |
| KycClaims.Builder.WithAddressHashed | mobile-connect-library/src/main/java/com/gsma/mobileconnect/r2/claims/KYCClaimsParameter.java:292-296 | assigns only the hashed address slot, records the call and returns the same builder |
| KycClaims.Builder.WithHousenoOrHousenameHashed | mobile-connect-library/src/main/java/com/gsma/mobileconnect/r2/claims/KYCClaimsParameter.java:298-302 | assigns only the hashed house number or name slot, records the call and returns the same builder |
| KycClaims.Builder.WithPostalCodeHashed | mobile-connect-library/src/main/java/com/gsma/mobileconnect/r2/claims/KYCClaimsParameter.java:304-308 | assigns only the hashed postal-code slot, records the call and returns the same builder |
| KycClaims.Builder.WithTownHashed | mobile-connect-library/src/main/java/com/gsma/mobileconnect/r2/claims/KYCClaimsParameter.java:310-314 | assigns only the hashed town slot, records the call and returns the same builder |
| KycClaims.Builder.WithCountryHashed | mobile-connect-library/src/main/java/com/gsma/mobileconnect/r2/claims/KYCClaimsParameter.java:316-320 | assigns only the hashed country slot, records the call and returns the same builder |
| KycClaims.Builder.WithBirthdateHashed | mobile-connect-library/src/main/java/com/gsma/mobileconnect/r2/claims/KYCClaimsParameter.java:322-326 | assigns only the hashed birthdate slot, records the call and returns the same builder |
| KycClaims.Builder.Snapshot | mobile-connect-library/src/main/java/com/gsma/mobileconnect/r2/claims/KYCClaimsParameter.java:59-80 | definition: the private constructor's field-for-field copy of the builder's 18 slots |
| KycClaims.Builder.Build | mobile-connect-library/src/main/java/com/gsma/mobileconnect/r2/claims/KYCClaimsParameter.java:59-80 | the built parameter's 18 getters return the builder's slots, which are the replay of the setter calls made so far |

## Left out

- Logging: the warnings of getCurrentVersion become the `Diagnostic` in the result. The warning toJson logs on a serialisation error is not modelled, because it has no effect on the result.
- Jackson's conversion of the tree to JSON text (escaping, formatting, the `@JsonDeserialize` builder binding) is a foreign library. The model stops at the tree, and whether serialisation fails is an input of ToJson.
- The string values of the version, scope, KYC key and link-relation constants are not part of this model. They are distinct constructors, and the text in `Other`/`Unrecognised` is assumed to equal none of them.
- The scope-string splitter (`StringUtils.convertToListBySpase`) is not part of this model. The token sequence is an input beside the raw scope string. `StringUtils.isNullOrEmpty` is modelled as "absent or of length zero".
- ProviderMetadata is reduced to its version list, and the exception class to the `InvalidScope` result carrying the raw scope.
- KycClaims.Builder.WithFamilyName: implements the corrected setter. The as-written assignment of the given-name slot is modelled by WrittenSlot and Replay, and stated by their lemmas.
- KycClaims.Builder.WithFamilyNameHashed: implements the corrected setter. The as-written assignment of the hashed given-name slot is modelled by WrittenSlot and Replay.
- Object identity of nested nodes: the wrapper stores the inner node's tree as a value. The source stores a reference, but nothing changes the inner node after that point.

## Findings

| source | as written | input that shows it | evidently intended | confidence | as-written member | corrected member |
|---|---|---|---|---|---|---|
| mobile-connect-library/src/main/java/com/gsma/mobileconnect/r2/claims/KYCClaimsParameter.java:232-236 | withFamilyName assigns the givenName field | `new Builder().withFamilyName("Smith").build()` has getFamilyName() null and getGivenName() "Smith" | withFamilyName assigns familyName | not executed | KycClaims.FamilySetterSetsGivenName | KycClaims.Builder.WithFamilyName |
| mobile-connect-library/src/main/java/com/gsma/mobileconnect/r2/claims/KYCClaimsParameter.java:286-290 | withFamilyNameHashed assigns the givenNameHashed field, so (BuiltFamilyNameAlwaysNull) no built parameter carries a family name | `new Builder().withFamilyNameHashed("h").build()` has getFamilyNameHashed() null and getGivenNameHashed() "h" | withFamilyNameHashed assigns familyNameHashed, so every value can be built | not executed | KycClaims.FamilySetterSetsGivenName | KycClaims.IntendedBuilderReachesEveryValue |
